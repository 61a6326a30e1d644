/** What identifies a command: the text of its type, schema version and payload, and the identity it is stored under. */
module Fingerprints {
  import opened Prelude
  import opened JsonText
  import opened Json

  datatype Command = Command(commandType: Text, schemaVersion: Text, payload: Value)

  const COMMAND_TYPE: Text := [0x63, 0x6f, 0x6d, 0x6d, 0x61, 0x6e, 0x64, 0x54, 0x79, 0x70, 0x65]
  const SCHEMA_VERSION: Text := [0x70, 0x61, 0x79, 0x6c, 0x6f, 0x61, 0x64, 0x53, 0x63, 0x68, 0x65, 0x6d, 0x61,
                                 0x56, 0x65, 0x72, 0x73, 0x69, 0x6f, 0x6e]
  const PAYLOAD: Text := [0x70, 0x61, 0x79, 0x6c, 0x6f, 0x61, 0x64]

  function Record(c: Command): Value {
    Obj([Field(COMMAND_TYPE, Str(c.commandType)), Field(SCHEMA_VERSION, Str(c.schemaVersion)),
         Field(PAYLOAD, c.payload)])
  }

  /** None: the payload cannot be serialised and the dispatcher throws. */
  function Fingerprint(c: Command): Option<Text> {
    Serialize(Record(c))
  }

  /** A JSON payload: object keys are distinct and every value can be printed. */
  predicate Ordinary(c: Command) {
    Proper(c.payload) && Supported(c.payload)
  }

  predicate SameCommand(c: Command, d: Command) {
    c.commandType == d.commandType && c.schemaVersion == d.schemaVersion && Equivalent(c.payload, d.payload)
  }

  lemma RecordFields(c: Command)
    ensures Supported(Record(c)) <==> Supported(c.payload)
    ensures Proper(Record(c)) <==> Proper(c.payload)
  {
    var fields := Record(c).fields;
    assert |COMMAND_TYPE| == 11 && |SCHEMA_VERSION| == 20 && |PAYLOAD| == 7;
    assert fields[0].value == Str(c.commandType) && fields[1].value == Str(c.schemaVersion) &&
           fields[2].value == c.payload;
    hide Fingerprint;
    assert Supported(Record(c)) ==> Supported(fields[2].value);
    assert Proper(Record(c)) ==> Proper(fields[2].value);
  }

  lemma RecordsAgree(c: Command, d: Command)
    ensures Equivalent(Record(c), Record(d)) <==> SameCommand(c, d)
  {
    var a, b := Record(c).fields, Record(d).fields;
    assert |COMMAND_TYPE| == 11 && |SCHEMA_VERSION| == 20 && |PAYLOAD| == 7;
    assert a[0].key == COMMAND_TYPE && a[1].key == SCHEMA_VERSION && a[2].key == PAYLOAD;
    assert b[0].key == COMMAND_TYPE && b[1].key == SCHEMA_VERSION && b[2].key == PAYLOAD;
    OwnKey(a[0], b, 0);
    OwnKey(a[1], b, 1);
    OwnKey(a[2], b, 2);
  }

  /** With distinct keys, a field finds its equivalent only at its own key. */
  lemma OwnKey(f: Field, fields: seq<Field>, k: nat)
    requires k < |fields| && fields[k].key == f.key
    requires forall j :: 0 <= j < |fields| && j != k ==> fields[j].key != f.key
    ensures HasEquivalent(f, fields) <==> Equivalent(f.value, fields[k].value)
  {
    hide Equivalent;
    if HasEquivalent(f, fields) {
      var j :| 0 <= j < |fields| && fields[j].key == f.key && Equivalent(f.value, fields[j].value);
      assert j == k;
    }
  }

  /** Fingerprints agree exactly when type, schema version and payload do, the payload up to the order of its keys. */
  lemma FingerprintsAgreeIff(c: Command, d: Command)
    requires Ordinary(c) && Ordinary(d)
    ensures Fingerprint(c).Some? && Fingerprint(d).Some?
    ensures Fingerprint(c) == Fingerprint(d) <==> SameCommand(c, d)
  {
    RecordFields(c);
    RecordFields(d);
    RecordsAgree(c, d);
    SerializesAlikeIff(Record(c), Record(d));
  }

  // -------------------------------------------------------------- identities

  datatype Name = Name(game: Text, actor: Text, key: Text)

  function Identity(n: Name): Text {
    n.game + [COLON] + n.actor + [COLON] + n.key
  }

  predicate ColonFree(t: Text) {
    COLON !in t
  }

  lemma SplitAtColon(s: Text, t: Text, x: Text, y: Text)
    requires ColonFree(s) && ColonFree(t) && s + [COLON] + x == t + [COLON] + y
    ensures s == t && x == y
  {
    var whole := s + [COLON] + x;
    assert whole[|s|] == COLON && whole[|t|] == COLON;
    assert forall i :: 0 <= i < |s| ==> whole[i] == s[i];
    assert forall i :: 0 <= i < |t| ==> whole[i] == t[i];
    assert |s| == |t|;
    assert s == whole[..|s|] && t == whole[..|t|];
    assert x == whole[|s| + 1..] && y == whole[|t| + 1..];
  }

  /** Games and actors named without a colon never share an identity. */
  lemma ColonFreeNamesAreIdentified(m: Name, n: Name)
    requires ColonFree(m.game) && ColonFree(m.actor) && ColonFree(n.game) && ColonFree(n.actor)
    ensures Identity(m) == Identity(n) <==> m == n
  {
    if Identity(m) == Identity(n) {
      assert Identity(m) == m.game + [COLON] + (m.actor + [COLON] + m.key);
      assert Identity(n) == n.game + [COLON] + (n.actor + [COLON] + n.key);
      SplitAtColon(m.game, n.game, m.actor + [COLON] + m.key, n.actor + [COLON] + n.key);
      SplitAtColon(m.actor, n.actor, m.key, n.key);
    }
  }

  ghost predicate Unambiguous(n: Name) {
    forall m: Name :: Identity(m) == Identity(n) ==> m == n
  }

  lemma FindColon(t: Text) returns (i: nat)
    requires !ColonFree(t)
    ensures i < |t| && t == t[..i] + [COLON] + t[i + 1..]
  {
    i :| 0 <= i < |t| && t[i] == COLON;
  }

  /** A name is told apart from every other name exactly when none of its three parts contains a colon. */
  lemma UnambiguousIff(n: Name)
    ensures Unambiguous(n) <==> ColonFree(n.game) && ColonFree(n.actor) && ColonFree(n.key)
  {
    if !ColonFree(n.game) {
      var i := FindColon(n.game);
      var m := Name(n.game[..i], n.game[i + 1..], n.actor + [COLON] + n.key);
      assert Identity(m) == Identity(n);
    } else if !ColonFree(n.actor) {
      var i := FindColon(n.actor);
      var m := Name(n.game, n.actor[..i], n.actor[i + 1..] + [COLON] + n.key);
      assert Identity(m) == Identity(n);
    } else if !ColonFree(n.key) {
      var i := FindColon(n.key);
      var m := Name(n.game + [COLON] + n.actor, n.key[..i], n.key[i + 1..]);
      assert Identity(m) == Identity(n) && m.game != n.game;
    } else {
      forall m: Name | Identity(m) == Identity(n)
        ensures m == n
      {
        SameColons(m, n);
        ColonFreeNamesAreIdentified(m, n);
      }
    }
  }

  /** Game a with actor b:c, and game a:b with actor c. */
  lemma TwoNamesOneIdentity(a: Text, b: Text, c: Text, key: Text)
    ensures
      var m, n := Name(a, b + [COLON] + c, key), Name(a + [COLON] + b, c, key);
      Identity(m) == Identity(n) && m != n && !Unambiguous(n)
  {
    var m, n := Name(a, b + [COLON] + c, key), Name(a + [COLON] + b, c, key);
    assert Identity(m) == Identity(n);
    assert |m.game| != |n.game|;
  }

  function Colons(t: Text): nat {
    multiset(t)[COLON]
  }

  lemma SameColons(m: Name, n: Name)
    requires Identity(m) == Identity(n) && ColonFree(n.game) && ColonFree(n.actor) && ColonFree(n.key)
    ensures ColonFree(m.game) && ColonFree(m.actor) && ColonFree(m.key)
  {
    CountColons(m);
    CountColons(n);
  }

  lemma CountColons(n: Name)
    ensures Colons(Identity(n)) == Colons(n.game) + Colons(n.actor) + Colons(n.key) + 2
    ensures forall t: Text :: ColonFree(t) <==> Colons(t) == 0
  {
    assert multiset(Identity(n)) ==
      multiset(n.game) + multiset{COLON} + multiset(n.actor) + multiset{COLON} + multiset(n.key);
  }
}
