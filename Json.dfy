/** A JSON value as `json.loads` returns it, and Python's `str()` of such a value. */
module Json {
  import opened Outcomes

  datatype Json =
    | JNull
    | JBool(b: bool)
    /** A number, held as the text Python prints for it. */
    | JNumber(text: string)
    | JString(s: string)
    | JArray(items: seq<Json>)
    /** A dict, its members in insertion order. */
    | JObject(members: seq<(string, Json)>)

  /** `key in d` for a decoded dict. */
  predicate HasKey(members: seq<(string, Json)>, key: string) {
    exists i :: 0 <= i < |members| && members[i].0 == key
  }

  /** `d[key]`: with repeated keys `json.loads` keeps the last value. */
  function Lookup(members: seq<(string, Json)>, key: string): (r: Option<Json>)
    ensures r.Some? <==> HasKey(members, key)
    ensures r.Some? ==> exists i :: 0 <= i < |members| && members[i] == (key, r.value)
  {
    if members == [] then None
    else
      var last := members[|members| - 1];
      if last.0 == key then Some(last.1)
      else
        var r := Lookup(members[..|members| - 1], key);
        assert forall i :: 0 <= i < |members| - 1 ==> members[..|members| - 1][i] == members[i];
        r
  }

  /** A repeated key yields the value of its last occurrence: no later member
      carries the key. */
  lemma {:induction false} LookupLast(members: seq<(string, Json)>, key: string)
    ensures Lookup(members, key).Some? ==>
              exists i :: 0 <= i < |members| && members[i] == (key, Lookup(members, key).value) &&
                          forall j :: i < j < |members| ==> members[j].0 != key
  {
    if members != [] && members[|members| - 1].0 != key {
      var init := members[..|members| - 1];
      LookupLast(init, key);
      if Lookup(members, key).Some? {
        var i :| 0 <= i < |init| && init[i] == (key, Lookup(init, key).value) &&
                 forall j :: i < j < |init| ==> init[j].0 != key;
        assert members[i] == init[i];
        forall j | i < j < |members|
          ensures members[j].0 != key
        {
          if j < |init| {
            assert members[j] == init[j];
          }
        }
      }
    }
  }

  /** No key occurs twice. */
  predicate DistinctKeys(dict: seq<(string, Json)>) {
    forall i, j :: 0 <= i < j < |dict| ==> dict[i].0 != dict[j].0
  }

  /** `d[k] = v` on a dict held as its members in iteration order: an existing key
      keeps its place and takes the new value, a new key goes to the end. */
  function Assign(dict: seq<(string, Json)>, member: (string, Json)): (r: seq<(string, Json)>)
    ensures member in r
    ensures forall e :: e in r ==> e == member || e in dict
    ensures forall e :: e in dict && e.0 != member.0 ==> e in r
    ensures DistinctKeys(dict) ==> DistinctKeys(r)
  {
    if dict == [] then [member]
    else if dict[0].0 == member.0 then
      var r := [member] + dict[1..];
      assert forall e :: e in dict[1..] ==> e in dict;
      assert DistinctKeys(dict) ==> forall e :: e in dict[1..] ==> e.0 != member.0 by {
        if DistinctKeys(dict) {
          forall e | e in dict[1..] ensures e.0 != member.0 {
            var j :| 0 <= j < |dict[1..]| && dict[1..][j] == e;
            assert dict[j + 1] == e;
          }
        }
      }
      r
    else
      var tail := Assign(dict[1..], member);
      assert forall e :: e in dict[1..] ==> e in dict;
      assert forall e :: e in dict && e != dict[0] ==> e in dict[1..];
      var r := [dict[0]] + tail;
      assert DistinctKeys(dict) ==> DistinctKeys(r) by {
        if DistinctKeys(dict) {
          assert forall e :: e in dict[1..] ==> e.0 != dict[0].0 by {
            forall e | e in dict[1..] ensures e.0 != dict[0].0 {
              var j :| 0 <= j < |dict[1..]| && dict[1..][j] == e;
              assert dict[j + 1] == e;
            }
          }
          assert DistinctKeys(dict[1..]);
          forall i, j | 0 <= i < j < |r| ensures r[i].0 != r[j].0 {
            if i == 0 {
              assert r[j] in tail;
            }
          }
        }
      }
      r
  }

  /** The dict `json.loads` builds from an object's members, in Python's iteration
      order: each key once, at its first position, with its last value. */
  function DictOf(members: seq<(string, Json)>): (r: seq<(string, Json)>)
    ensures forall e :: e in r ==> e in members
    ensures DistinctKeys(r)
  {
    if members == [] then []
    else
      var init := members[..|members| - 1];
      var r := Assign(DictOf(init), members[|members| - 1]);
      assert forall e :: e in init ==> e in members;
      r
  }

  /** In a dict without repeated keys, the member holding a key supplies its value. */
  lemma LookupDistinct(dict: seq<(string, Json)>, i: int)
    requires DistinctKeys(dict) && 0 <= i < |dict|
    ensures Lookup(dict, dict[i].0) == Some(dict[i].1)
  {
    var r := Lookup(dict, dict[i].0);
    assert HasKey(dict, dict[i].0);
    var k :| 0 <= k < |dict| && dict[k] == (dict[i].0, r.value);
  }

  /** After `d[k] = v`, the key `k` yields `v` and every other key what it yielded before. */
  lemma AssignLookup(dict: seq<(string, Json)>, member: (string, Json), key: string)
    requires DistinctKeys(dict)
    ensures Lookup(Assign(dict, member), key) ==
            if key == member.0 then Some(member.1) else Lookup(dict, key)
  {
    var r := Assign(dict, member);
    if key == member.0 {
      var i :| 0 <= i < |r| && r[i] == member;
      LookupDistinct(r, i);
    } else if Lookup(dict, key).Some? {
      var i :| 0 <= i < |dict| && dict[i] == (key, Lookup(dict, key).value);
      assert dict[i] in r;
      var k :| 0 <= k < |r| && r[k] == dict[i];
      LookupDistinct(r, k);
    }
  }

  /** The dict `json.loads` builds answers every `d[key]` as `Lookup` does on the
      raw members: the same keys, each with its last value. */
  lemma {:induction false} DictOfLookup(members: seq<(string, Json)>, key: string)
    ensures Lookup(DictOf(members), key) == Lookup(members, key)
  {
    if members != [] {
      var init := members[..|members| - 1];
      DictOfLookup(init, key);
      AssignLookup(DictOf(init), members[|members| - 1], key);
    }
  }

  /** `str(x)`: a string is itself, anything else its `repr`. */
  function Str(j: Json): string {
    if j.JString? then j.s else Repr(j)
  }

  /** `repr(x)`; a decoded object prints as the dict `json.loads` built from it. */
  function Repr(j: Json): string
    decreases j, 2
  {
    match j
    case JNull => "None"
    case JBool(b) => if b then "True" else "False"
    case JNumber(text) => text
    case JString(s) => "'" + s + "'"
    case JArray(items) => "[" + ReprItems(items) + "]"
    case JObject(members) => "{" + ReprMembers(members, DictOf(members)) + "}"
  }

  function ReprItems(items: seq<Json>): string
    decreases items, 1
  {
    if items == [] then ""
    else if |items| == 1 then Repr(items[0])
    else Repr(items[0]) + ", " + ReprItems(items[1..])
  }

  /** The printed `entries`, each of which is one of `members`. */
  function ReprMembers(members: seq<(string, Json)>, entries: seq<(string, Json)>): string
    requires forall e :: e in entries ==> e in members
    decreases members, 1, |entries|
  {
    if entries == [] then ""
    else
      assert entries[0] in members;
      var entry := ReprMember(entries[0]);
      if |entries| == 1 then entry else entry + ", " + ReprMembers(members, entries[1..])
  }

  function ReprMember(member: (string, Json)): string
    decreases member, 0
  {
    "'" + member.0 + "': " + Repr(member.1)
  }

  /** A repeated key prints once, at its first place, with its last value. */
  lemma RepeatedKeyPrintsOnce()
    ensures Repr(JObject([("a", JNumber("1")), ("b", JNumber("2")), ("a", JNumber("3"))])) ==
            "{'a': 3, 'b': 2}"
  {
    var m := [("a", JNumber("1")), ("b", JNumber("2")), ("a", JNumber("3"))];
    assert m[..2][..1] == [("a", JNumber("1"))];
    assert m[..2][..1][..0] == [];
    assert DictOf(m[..2][..1]) == [("a", JNumber("1"))];
    assert Assign([("a", JNumber("1"))], m[1]) == [m[0]] + Assign([], m[1]);
    assert DictOf(m[..2]) == [("a", JNumber("1")), ("b", JNumber("2"))];
    assert DictOf(m) == [("a", JNumber("3")), ("b", JNumber("2"))];
  }
}
