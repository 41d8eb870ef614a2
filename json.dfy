/** Parsed JSON values as JavaScript sees them, with the property access the harvester uses. */
module Json {
  import opened Common

  /** A JavaScript value produced by `response.json()`; `Undef` stands for `undefined`,
      which can appear where a property is absent. Numbers are modelled as integers. An
      object's keys are taken to be distinct: `JSON.parse` keeps the last of duplicate keys,
      while `Lookup` reads the first, so documents with duplicate keys are not modelled. */
  datatype JValue =
    | Null
    | Undef
    | Bool(b: bool)
    | Num(n: int)
    | Str(s: string)
    | Arr(items: seq<JValue>)
    | Obj(entries: seq<(string, JValue)>)

  /** `null` or `undefined`: reading a property of such a value throws a `TypeError`. */
  predicate IsNullish(v: JValue) { v.Null? || v.Undef? }

  /** The value stored under `key` in an object's entries, or `undefined`. */
  function Lookup(entries: seq<(string, JValue)>, key: string): (r: JValue)
    ensures (forall i :: 0 <= i < |entries| ==> entries[i].0 != key) ==> r == Undef
    ensures r != Undef ==> exists i :: 0 <= i < |entries| && entries[i] == (key, r)
  {
    if entries == [] then Undef
    else if entries[0].0 == key then entries[0].1
    else Lookup(entries[1..], key)
  }

  /** `v[key]` for a value that is not nullish. Arrays and strings own no property with
      the names this model reads, so only objects yield something other than `undefined`. */
  function Get(v: JValue, key: string): JValue {
    match v
    case Obj(entries) => Lookup(entries, key)
    case _ => Undef
  }

  /** The own enumerable properties of `v` converted to an object, as object rest
      destructuring (`{ ...rest } = v`) and `Object.entries` list them: an object's entries,
      an array's or a string's indexed elements, and nothing for a number or a boolean. */
  function Entries(v: JValue): seq<(string, JValue)> {
    match v
    case Obj(entries) => entries
    case Arr(items) => seq(|items|, i requires 0 <= i < |items| => (NatToString(i), items[i]))
    case Str(s) => seq(|s|, i requires 0 <= i < |s| => (NatToString(i), Str([s[i]])))
    case _ => []
  }

  /** `{ ...entries, [key]: value }` for an object that already has `key`: the entry keeps
      its place and only its value changes. */
  function SetEntry(entries: seq<(string, JValue)>, key: string, value: JValue): (r: seq<(string, JValue)>)
    ensures |r| == |entries|
    ensures forall i :: 0 <= i < |r| ==> r[i].0 == entries[i].0
    ensures forall i :: 0 <= i < |r| && entries[i].0 != key ==> r[i] == entries[i]
  {
    if entries == [] then []
    else [(entries[0].0, if entries[0].0 == key then value else entries[0].1)] + SetEntry(entries[1..], key, value)
  }

  /** After `SetEntry`, reading `key` gives the new value and every other key reads as before. */
  lemma {:induction false} LookupSetEntry(entries: seq<(string, JValue)>, key: string, value: JValue, k: string)
    requires exists i :: 0 <= i < |entries| && entries[i].0 == key
    ensures Lookup(SetEntry(entries, key, value), k) == if k == key then value else Lookup(entries, k)
  {
    var r := SetEntry(entries, key, value);
    SetEntryCons(entries, key, value);
    if entries[0].0 != key {
      var i :| 0 <= i < |entries| && entries[i].0 == key;
      assert entries[1..][i - 1].0 == key;
      LookupSetEntry(entries[1..], key, value, k);
    } else if k != key {
      LookupSetEntryOther(entries[1..], key, value, k);
    }
  }

  lemma SetEntryCons(entries: seq<(string, JValue)>, key: string, value: JValue)
    requires entries != []
    ensures var r := SetEntry(entries, key, value);
      && r[0] == (entries[0].0, if entries[0].0 == key then value else entries[0].1)
      && r[1..] == SetEntry(entries[1..], key, value)
  {
  }

  lemma {:induction false} LookupSetEntryOther(entries: seq<(string, JValue)>, key: string, value: JValue, k: string)
    requires k != key
    ensures Lookup(SetEntry(entries, key, value), k) == Lookup(entries, k)
  {
    if entries != [] {
      SetEntryCons(entries, key, value);
      if entries[0].0 != k {
        LookupSetEntryOther(entries[1..], key, value, k);
      }
    }
  }
}
