/** JSON documents as Python holds them, objects in insertion order, and the text they are stored as. */
module Documents {
  import opened Outcomes
  import opened JsonValues

  datatype Doc =
    | DNull
    | DBool(b: bool)
    | DInt(n: int)
    | DStr(s: string)
    | DArr(items: seq<Doc>)
    | DObj(fields: Dict)

  /** A dict: its items in insertion order. */
  type Dict = seq<(string, Doc)>

  predicate DistinctKeys(fields: Dict) {
    forall i, j :: 0 <= i < j < |fields| ==> fields[i].0 != fields[j].0
  }

  /** No object, at any depth, has two entries for one key. */
  predicate WellFormed(d: Doc) {
    match d
    case DArr(items) => forall i :: 0 <= i < |items| ==> WellFormed(items[i])
    case DObj(fields) => DistinctKeys(fields) && forall i :: 0 <= i < |fields| ==> WellFormed(fields[i].1)
    case _ => true
  }

  /** dict.get(key). */
  function Find(fields: Dict, key: string): Option<Doc> {
    if fields == [] then None
    else if fields[0].0 == key then Some(fields[0].1)
    else Find(fields[1..], key)
  }

  function KeysOf(fields: Dict): (keys: seq<string>)
    ensures |keys| == |fields|
  {
    seq(|fields|, i requires 0 <= i < |fields| => fields[i].0)
  }

  /** dict[key] = value: in place for a key that is there, at the end for a new one. */
  function SetItem(fields: Dict, key: string, value: Doc): Dict {
    if fields == [] then [(key, value)]
    else if fields[0].0 == key then [(key, value)] + fields[1..]
    else [fields[0]] + SetItem(fields[1..], key, value)
  }

  lemma {:induction false} FindAt(fields: Dict, i: nat)
    requires i < |fields| && forall j :: 0 <= j < i ==> fields[j].0 != fields[i].0
    ensures Find(fields, fields[i].0) == Some(fields[i].1)
  {
    if i > 0 {
      assert fields[1..][i - 1] == fields[i];
      FindAt(fields[1..], i - 1);
    }
  }

  /** The entry at i, when no earlier key is its own. */
  lemma KeyFinds(fields: Dict, keys: seq<string>, i: nat)
    requires KeysOf(fields) == keys && i < |keys| && forall j :: 0 <= j < i ==> keys[j] != keys[i]
    ensures Find(fields, keys[i]) == Some(fields[i].1)
  {
    assert fields[i].0 == keys[i];
    forall j | 0 <= j < i ensures fields[j].0 != fields[i].0 { assert fields[j].0 == keys[j]; }
    FindAt(fields, i);
  }

  lemma {:induction false} FoundIsThere(fields: Dict, key: string) returns (i: nat)
    requires Find(fields, key).Some?
    ensures i < |fields| && fields[i] == (key, Find(fields, key).value)
  {
    if fields[0].0 == key {
      i := 0;
    } else {
      var j := FoundIsThere(fields[1..], key);
      i := j + 1;
    }
  }

  lemma FoundIsWellFormed(fields: Dict, key: string)
    requires WellFormed(DObj(fields)) && Find(fields, key).Some?
    ensures WellFormed(Find(fields, key).value)
  {
    var i := FoundIsThere(fields, key);
  }

  lemma {:induction false} EntryIsFound(fields: Dict, i: nat)
    requires i < |fields|
    ensures Find(fields, fields[i].0).Some?
  {
    if fields[0].0 != fields[i].0 {
      assert fields[1..][i - 1] == fields[i];
      EntryIsFound(fields[1..], i - 1);
    }
  }

  /** Dictionaries with the same entries, in any order, answer the same. */
  lemma SameEntriesFind(f: Dict, g: Dict, key: string)
    requires DistinctKeys(f) && DistinctKeys(g) && forall entry :: entry in f <==> entry in g
    ensures Find(f, key) == Find(g, key)
  {
    if Find(f, key).Some? {
      var i := FoundIsThere(f, key);
      assert f[i] in g;
      var j :| 0 <= j < |g| && g[j] == f[i];
      FindAt(g, j);
    } else if Find(g, key).Some? {
      var i := FoundIsThere(g, key);
      assert g[i] in f;
      var j :| 0 <= j < |f| && f[j] == g[i];
      EntryIsFound(f, j);
    }
  }

  lemma SwappedEntries(fields: Dict, i: nat, j: nat)
    requires i < j < |fields| && DistinctKeys(fields)
    ensures var f := fields[i := fields[j]][j := fields[i]];
            DistinctKeys(f) && forall entry :: entry in f <==> entry in fields
  {
    var f := fields[i := fields[j]][j := fields[i]];
    forall entry | entry in fields ensures entry in f {
      var k :| 0 <= k < |fields| && fields[k] == entry;
      assert entry == f[if k == i then j else if k == j then i else k];
    }
  }

  /** Without entry i only its key is gone. */
  lemma {:induction false} WithoutEntry(fields: Dict, i: nat, key: string)
    requires i < |fields| && DistinctKeys(fields)
    ensures Find(fields[..i] + fields[i + 1..], key) == if key == fields[i].0 then None else Find(fields, key)
  {
    if i == 0 {
      assert fields[..0] + fields[1..] == fields[1..];
      if key == fields[0].0 && Find(fields[1..], key).Some? { var j := FoundIsThere(fields[1..], key); }
    } else {
      var rest := fields[1..];
      assert fields[..i] + fields[i + 1..] == [fields[0]] + (rest[..i - 1] + rest[i..]);
      assert rest[i - 1] == fields[i];
      WithoutEntry(rest, i - 1, key);
    }
  }

  /** Assignment changes what is found under its own key only. */
  lemma {:induction false} SetItemFinds(fields: Dict, key: string, value: Doc)
    ensures forall k :: Find(SetItem(fields, key, value), k) == if k == key then Some(value) else Find(fields, k)
  {
    var after := SetItem(fields, key, value);
    if fields != [] {
      if fields[0].0 == key {
        assert after[1..] == fields[1..];
      } else {
        assert after[1..] == SetItem(fields[1..], key, value);
        SetItemFinds(fields[1..], key, value);
      }
    }
  }

  lemma ConsKeepsForm(entry: (string, Doc), rest: Dict)
    requires WellFormed(entry.1) && WellFormed(DObj(rest)) && forall i :: 0 <= i < |rest| ==> rest[i].0 != entry.0
    ensures WellFormed(DObj([entry] + rest))
  {
  }

  lemma {:induction false} SetItemKeepsForm(fields: Dict, key: string, value: Doc)
    requires WellFormed(DObj(fields)) && WellFormed(value)
    ensures WellFormed(DObj(SetItem(fields, key, value)))
  {
    var after := SetItem(fields, key, value);
    if fields != [] {
      var rest := fields[1..];
      assert WellFormed(DObj(rest)) by { assert forall i :: 0 <= i < |rest| ==> rest[i] == fields[i + 1]; }
      if fields[0].0 == key {
        ConsKeepsForm((key, value), rest);
      } else {
        SetItemKeepsForm(rest, key, value);
        SetItemFinds(rest, key, value);
        var next := SetItem(rest, key, value);
        forall i | 0 <= i < |next| ensures next[i].0 != fields[0].0 {
          EntryIsFound(next, i);
          if next[i].0 == fields[0].0 { var j := FoundIsThere(rest, fields[0].0); }
        }
        ConsKeepsForm(fields[0], SetItem(rest, key, value));
      }
    }
  }

  /** The value without its order, as == compares it. */
  function Plain(d: Doc): Json
    decreases d, if d.DObj? then |d.fields| + 1 else 0
  {
    match d
    case DNull => Null
    case DBool(b) => Bool(b)
    case DInt(n) => Int(n)
    case DStr(s) => Str(s)
    case DArr(items) => Arr(seq(|items|, i requires 0 <= i < |items| => Plain(items[i])))
    case DObj(fields) => Obj(PlainFrom(d, 0))
  }

  function PlainFrom(d: Doc, i: nat): map<string, Json>
    requires d.DObj? && i <= |d.fields|
    decreases d, |d.fields| - i
  {
    if i == |d.fields| then map[] else PlainFrom(d, i + 1)[d.fields[i].0 := Plain(d.fields[i].1)]
  }

  lemma {:induction false} PlainFromLooksUp(d: Doc, i: nat, key: string)
    requires d.DObj? && i <= |d.fields|
    ensures var (found, plain) := (Find(d.fields[i..], key), PlainFrom(d, i));
            Get(plain, key) == if found.Some? then Some(Plain(found.value)) else None
    decreases |d.fields| - i
  {
    if i < |d.fields| {
      assert d.fields[i..][0] == d.fields[i] && d.fields[i..][1..] == d.fields[i + 1..];
      PlainFromLooksUp(d, i + 1, key);
    }
  }

  /** Looking up a key finds the same value with and without the order. */
  lemma PlainLooksUp(fields: Dict, key: string)
    ensures var found := Find(fields, key);
            Get(Plain(DObj(fields)).fields, key) == if found.Some? then Some(Plain(found.value)) else None
  {
    PlainFromLooksUp(DObj(fields), 0, key);
    assert fields[0..] == fields;
  }

  /** json.dumps as the registry calls it, and json.loads; None where it raises. */
  datatype JsonCodec = JsonCodec(write: Doc -> string, read: string -> Option<Doc>)

  /** What is written reads back, order included, and what is read has no repeated keys. Nothing says
      that only written text reads: spacing and escapes make many texts of one document. */
  ghost predicate Lossless(json: JsonCodec) {
    && (forall d :: WellFormed(d) ==> json.read(json.write(d)) == Some(d))
    && (forall text :: json.read(text).Some? ==> WellFormed(json.read(text).value))
  }
}
