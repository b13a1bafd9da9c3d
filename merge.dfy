/** The merge engine, `mergeData`: applies a write payload to a document's
    field map, interpreting the update-operator markers. */
module Merge {
  import opened Json

  /** A payload value once its `__op` sentinel has been read. The operands
      are kept as raw values, because their shape is checked only when the
      operator is applied. */
  datatype Op =
    | Union(arr: Value)   // {__op: "arrayUnion", arr}
    | Remove(arr: Value)  // {__op: "arrayRemove", arr}
    | Inc(n: Value)       // {__op: "inc", n}
    | Del                 // {__op: "del"}
    | Ts                  // {__op: "ts"}
    | Lit(v: Value)       // anything else, stored as it is

  /** A property of an object, with an absent one read as null. */
  function Member(m: Fields, k: string): Value
  {
    if k in m then m[k] else Null
  }

  /** The five `__op` markers. */
  const Markers: seq<Value> := [Str("arrayUnion"), Str("arrayRemove"), Str("inc"), Str("del"), Str("ts")]

  /** The sentinel test of the marker if-chain: only an object whose `__op`
      names one of the five markers is an operator; every other value,
      arrays and objects included, is a literal. */
  function Classify(d: Value): (op: Op)
    ensures !op.Lit? <==> d.Obj? && Member(d.fields, "__op") in Markers
    ensures op.Lit? ==> op.v == d
    ensures d.Obj? && Member(d.fields, "__op") == Str("arrayUnion") ==> op == Union(Member(d.fields, "arr"))
    ensures d.Obj? && Member(d.fields, "__op") == Str("arrayRemove") ==> op == Remove(Member(d.fields, "arr"))
    ensures d.Obj? && Member(d.fields, "__op") == Str("inc") ==> op == Inc(Member(d.fields, "n"))
    ensures d.Obj? && Member(d.fields, "__op") == Str("del") ==> op == Del
    ensures d.Obj? && Member(d.fields, "__op") == Str("ts") ==> op == Ts
  {
    match d
    case Obj(m) =>
      var tag := Member(m, "__op");
      if tag == Str("arrayUnion") then Union(Member(m, "arr"))
      else if tag == Str("arrayRemove") then Remove(Member(m, "arr"))
      else if tag == Str("inc") then Inc(Member(m, "n"))
      else if tag == Str("del") then Del
      else if tag == Str("ts") then Ts
      else Lit(d)
    case _ => Lit(d)
  }

  /** The keys `for (k in v)` visits, with their values: an object's own
      properties, the indices of an array or of a string, nothing otherwise. */
  function Entries(v: Value): (m: Fields)
    ensures v.Obj? ==> m == v.fields
    ensures v.Arr? ==> |m| == |v.items|
    ensures v.Arr? ==> forall i | 0 <= i < |v.items| :: NatDecimal(i) in m && m[NatDecimal(i)] == v.items[i]
    ensures v.Str? ==> |m| == |v.s|
    ensures v.Str? ==> forall i | 0 <= i < |v.s| :: NatDecimal(i) in m && m[NatDecimal(i)] == Str([v.s[i]])
    ensures !(v.Obj? || v.Arr? || v.Str?) ==> m == map[]
  {
    match v
    case Obj(fields) => fields
    case Arr(items) =>
      IndexedAt(items);
      IndexedSize(items);
      Indexed(items)
    case Str(s) =>
      var chars := seq(|s|, i requires 0 <= i < |s| => Str([s[i]]));
      IndexedAt(chars);
      IndexedSize(chars);
      Indexed(chars)
    case _ => map[]
  }

  /** An index-keyed map of a sequence, as for..in sees an array. */
  function Indexed(items: seq<Value>): Fields
  {
    if |items| == 0 then map[]
    else
      var n := |items| - 1;
      Indexed(items[..n])[NatDecimal(n) := items[n]]
  }

  /** Index `i` is the key `NatDecimal(i)`, holding element `i`. */
  lemma {:induction false} IndexedAt(items: seq<Value>)
    ensures forall i | 0 <= i < |items| :: NatDecimal(i) in Indexed(items) && Indexed(items)[NatDecimal(i)] == items[i]
  {
    if |items| > 0 {
      var n := |items| - 1;
      var front := items[..n];
      IndexedAt(front);
      DistinctIndices(n);
      var m := Indexed(items);
      forall i | 0 <= i < |items| ensures NatDecimal(i) in m && m[NatDecimal(i)] == items[i] {
        if i < n {
          assert front[i] == items[i];
          assert NatDecimal(i) != NatDecimal(n);
        }
      }
    }
  }

  /** `k` is the key of an index below `n`. */
  predicate IndexKey(k: string, n: nat)
  {
    exists i: nat | i < n :: k == NatDecimal(i)
  }

  /** There are no other keys than the indices. */
  lemma {:induction false} IndexedOnly(items: seq<Value>)
    ensures forall k | k in Indexed(items) :: IndexKey(k, |items|)
  {
    if |items| > 0 {
      var n := |items| - 1;
      var front := items[..n];
      IndexedOnly(front);
      assert Indexed(items) == Indexed(front)[NatDecimal(n) := items[n]];
      forall k | k in Indexed(items) ensures IndexKey(k, |items|) {
        if k != NatDecimal(n) {
          assert IndexKey(k, n);
          var i: nat :| i < n && k == NatDecimal(i);
          assert i < |items| && k == NatDecimal(i);
        } else {
          assert n < |items| && k == NatDecimal(n);
        }
      }
    }
  }

  /** Distinct indices are distinct keys, so there is one key per element. */
  lemma {:induction false} IndexedSize(items: seq<Value>)
    ensures |Indexed(items)| == |items|
  {
    if |items| > 0 {
      var n := |items| - 1;
      var front := items[..n];
      IndexedSize(front);
      IndexedOnly(front);
      assert |front| == n;
      FreshIndex(Indexed(front), n);
      assert Indexed(items).Keys == Indexed(front).Keys + {NatDecimal(n)};
    }
  }

  /** An index-keyed map below `n` has no key for index `n`. */
  lemma FreshIndex(m: Fields, n: nat)
    requires forall k | k in m :: IndexKey(k, n)
    ensures NatDecimal(n) !in m
  {
    DistinctIndices(n);
  }

  /** No index below `n` has the key of index `n`. */
  lemma DistinctIndices(n: nat)
    ensures forall i | 0 <= i < n :: NatDecimal(i) != NatDecimal(n)
  {
    forall i | 0 <= i < n ensures NatDecimal(i) != NatDecimal(n) {
      if NatDecimal(i) == NatDecimal(n) {
        NatDecimalInjective(i, n);
      }
    }
  }

  /** The operations a payload asks for, key by key. */
  function Payload(newData: Value): (p: map<string, Op>)
    ensures p.Keys == Entries(newData).Keys
    ensures newData.Obj? ==> forall k | k in p :: p[k] == Classify(newData.fields[k])
    ensures newData.Arr? ==> |p| == |newData.items|
    ensures newData.Arr? ==>
      forall i | 0 <= i < |newData.items| :: NatDecimal(i) in p && p[NatDecimal(i)] == Classify(newData.items[i])
    ensures newData.Str? ==> |p| == |newData.s|
    ensures newData.Str? ==>
      forall i | 0 <= i < |newData.s| :: NatDecimal(i) in p && p[NatDecimal(i)] == Lit(Str([newData.s[i]]))
    ensures !(newData.Obj? || newData.Arr? || newData.Str?) ==> p == map[]
  {
    var e := Entries(newData);
    map k | k in e :: Classify(e[k])
  }

  /** An operator whose operand has the wrong shape: arrayUnion or
      arrayRemove without an array, inc without a number. */
  predicate Malformed(op: Op)
  {
    || (op.Union? && !op.arr.Arr?)
    || (op.Remove? && !op.arr.Arr?)
    || (op.Inc? && !op.n.Num?)
  }

  /** The current value of a field forced to an array. */
  function AsArray(cur: Option<Value>): seq<Value>
  {
    if cur.Some? && cur.value.Arr? then cur.value.items else []
  }

  /** ramda's `without(xs, list)`: the elements of `list` equal to no element
      of `xs`, in their order. */
  function Without(xs: seq<Value>, list: seq<Value>): (r: seq<Value>)
    ensures |r| <= |list|
    ensures forall i | 0 <= i < |r| :: r[i] in list && r[i] !in xs
  {
    if |list| == 0 then []
    else if list[0] in xs then Without(xs, list[1..])
    else [list[0]] + Without(xs, list[1..])
  }

  /** One field's new value, `None` when the key is to be removed. */
  function FieldUpdate(cur: Option<Value>, op: Op, ts: int): (r: Result<Option<Value>>)
    ensures r.Err? <==> Malformed(op)
    ensures r.Ok? && r.value.None? <==> op.Del?
  {
    match op
    case Union(arr) =>
      if !arr.Arr? then Err(WrongQuery) else Ok(Some(Arr(AsArray(cur) + arr.items)))
    case Remove(arr) =>
      if !arr.Arr? then Err(WrongQuery) else Ok(Some(Arr(Without(arr.items, AsArray(cur)))))
    case Inc(n) =>
      if !n.Num? then Err(WrongQuery)
      else Ok(Some(PlusNumber(IncStart(cur), n.n)))
    case Del => Ok(None)
    case Ts => Ok(Some(Num(ts)))
    case Lit(v) => Ok(Some(v))
  }

  /** What `inc` adds to: the field, or 0 when it is missing or null. */
  function IncStart(cur: Option<Value>): Value
  {
    if cur.None? || cur.value == Null then Num(0) else cur.value
  }

  /** The map the merge starts from: empty for an overwrite or a null
      `__data`, the current fields otherwise. */
  function Base(data: Option<Fields>, overwrite: bool): Fields
  {
    if data.None? || overwrite then map[] else data.value
  }

  /** The value of key `k` after the merge, given that nothing failed. */
  function After(base: Fields, payload: map<string, Op>, ts: int, k: string): Option<Value>
  {
    if k in payload && FieldUpdate(Get(base, k), payload[k], ts).Ok?
    then FieldUpdate(Get(base, k), payload[k], ts).value
    else Get(base, k)
  }

  /** The merge, stated key by key: it fails when any operator is malformed,
      and otherwise every key holds its `After` value. */
  function Merged(data: Option<Fields>, payload: map<string, Op>, overwrite: bool, ts: int): Result<Fields>
  {
    var base := Base(data, overwrite);
    if exists k | k in payload :: Malformed(payload[k]) then Err(WrongQuery)
    else Ok(map k | k in base.Keys + payload.Keys && After(base, payload, ts, k).Some? :: After(base, payload, ts, k).value)
  }

  /** The merge fails exactly when some operator is malformed. */
  lemma MergedFails(data: Option<Fields>, payload: map<string, Op>, overwrite: bool, ts: int)
    ensures Merged(data, payload, overwrite, ts).Err? <==> exists k | k in payload :: Malformed(payload[k])
  {
  }

  /** Every lookup in a successful merge gives the `After` value. */
  lemma MergedGet(data: Option<Fields>, payload: map<string, Op>, overwrite: bool, ts: int, k: string)
    requires Merged(data, payload, overwrite, ts).Ok?
    ensures Get(Merged(data, payload, overwrite, ts).value, k) == After(Base(data, overwrite), payload, ts, k)
  {
  }

  /** `mergeData(_data, new_data, overwrite)`: walks the payload's keys and
      updates the field map one key at a time, failing on the first
      malformed operator. */
  method MergeData(data: Option<Fields>, payload: map<string, Op>, overwrite: bool, ts: int)
    returns (r: Result<Fields>)
    ensures r == Merged(data, payload, overwrite, ts)
  {
    var cur := Base(data, overwrite);
    ghost var base := cur;
    var todo := payload.Keys;
    while todo != {}
      invariant todo <= payload.Keys
      invariant forall k | k in payload && k !in todo ::
        !Malformed(payload[k]) && Get(cur, k) == After(base, payload, ts, k)
      invariant forall k | k !in payload || k in todo :: Get(cur, k) == Get(base, k)
      decreases todo
    {
      var k :| k in todo;
      var u := FieldUpdate(Get(cur, k), payload[k], ts);
      if u.Err? {
        return Err(u.error);
      }
      cur := if u.value.Some? then cur[k := u.value.value] else cur - {k};
      todo := todo - {k};
    }
    var merged := Merged(data, payload, overwrite, ts);
    forall k ensures Get(cur, k) == Get(merged.value, k) {
      MergedGet(data, payload, overwrite, ts, k);
    }
    SameGets(cur, merged.value);
    r := Ok(cur);
  }

  // ---------------------------------------------------------------------
  // Properties of the merge

  /** Without `overwrite`, on a document that has data, the merge touches
      only the keys the payload names. */
  lemma MergeKeepsUnnamed(data: Fields, payload: map<string, Op>, ts: int, k: string)
    requires Merged(Some(data), payload, false, ts).Ok?
    requires k !in payload
    ensures Get(Merged(Some(data), payload, false, ts).value, k) == Get(data, k)
  {
    MergedGet(Some(data), payload, false, ts, k);
  }

  /** With `overwrite` (set, add) or a null `__data` the merge starts from an
      empty map, so what the document held before cannot show through. */
  lemma {:induction false} OverwriteForgets(d1: Option<Fields>, d2: Option<Fields>, payload: map<string, Op>, ts: int)
    ensures Merged(d1, payload, true, ts) == Merged(d2, payload, true, ts)
    ensures Merged(None, payload, false, ts) == Merged(d1, payload, true, ts)
    ensures Merged(d1, payload, true, ts).Ok? ==> Merged(d1, payload, true, ts).value.Keys <= payload.Keys
  {
    var m := Merged(d1, payload, true, ts);
    if m.Ok? {
      forall k | k in m.value ensures k in payload {
        MergedGet(d1, payload, true, ts, k);
      }
    }
  }

  /** A payload none of whose values is a marker is stored exactly: after
      `set(D)` the document's fields are D, whatever it held before. */
  lemma {:induction false} SetStoresPayload(prior: Option<Fields>, d: Fields, ts: int)
    requires forall k | k in d :: Classify(d[k]).Lit?
    ensures Merged(prior, Payload(Obj(d)), true, ts) == Ok(d)
  {
    var p := Payload(Obj(d));
    assert !exists k | k in p :: Malformed(p[k]);
    var m := Merged(prior, p, true, ts);
    forall k ensures Get(m.value, k) == Get(d, k) {
      MergedGet(prior, p, true, ts, k);
    }
    SameGets(m.value, d);
  }

  /** Membership in the result of `without`. */
  lemma {:induction false} WithoutMembers(xs: seq<Value>, list: seq<Value>, e: Value)
    ensures e in Without(xs, list) <==> e in list && e !in xs
    decreases |list|
  {
    if |list| > 0 {
      WithoutMembers(xs, list[1..], e);
      assert list == [list[0]] + list[1..];
    }
  }

  /** `ys` is `list` with some elements dropped and the rest in order. */
  predicate Subsequence(ys: seq<Value>, list: seq<Value>)
    decreases |list|
  {
    if |ys| == 0 then true
    else if |list| == 0 then false
    else (ys[0] == list[0] && Subsequence(ys[1..], list[1..])) || Subsequence(ys, list[1..])
  }

  /** The survivors of `without` keep their relative order. */
  lemma {:induction false} WithoutKeepsOrder(xs: seq<Value>, list: seq<Value>)
    ensures Subsequence(Without(xs, list), list)
    decreases |list|
  {
    if |list| > 0 {
      WithoutKeepsOrder(xs, list[1..]);
      if list[0] !in xs {
        var w := Without(xs, list);
        assert w[0] == list[0] && w[1..] == Without(xs, list[1..]);
      }
    }
  }

  /** `without` distributes over concatenation. */
  lemma {:induction false} WithoutAppend(xs: seq<Value>, a: seq<Value>, b: seq<Value>)
    ensures Without(xs, a + b) == Without(xs, a) + Without(xs, b)
    decreases |a|
  {
    if |a| > 0 {
      assert (a + b)[0] == a[0] && (a + b)[1..] == a[1..] + b;
      WithoutAppend(xs, a[1..], b);
    } else {
      assert a + b == b;
    }
  }

  /** An arrayRemove that follows an arrayUnion on the same field removes the
      listed elements from both the old array and the appended ones, and
      keeps everything else in order. */
  lemma {:induction false} UnionThenRemove(data: Fields, k: string, u: seq<Value>, r: seq<Value>, ts: int)
    ensures Merged(Some(data), map[k := Union(Arr(u))], false, ts).Ok?
    ensures
      var d1 := Merged(Some(data), map[k := Union(Arr(u))], false, ts).value;
      var d2 := Merged(Some(d1), map[k := Remove(Arr(r))], false, ts);
      d2.Ok? && Get(d2.value, k) == Some(Arr(Without(r, AsArray(Get(data, k))) + Without(r, u)))
  {
    var p1 := map[k := Union(Arr(u))];
    assert !Malformed(p1[k]);
    var d1 := Merged(Some(data), p1, false, ts).value;
    MergedGet(Some(data), p1, false, ts, k);
    var p2 := map[k := Remove(Arr(r))];
    assert !Malformed(p2[k]);
    MergedGet(Some(d1), p2, false, ts, k);
    WithoutAppend(r, AsArray(Get(data, k)), u);
  }

  /** Two increments of a numeric or missing field add up: `inc(a)` then
      `inc(b)` leaves what `inc(a + b)` leaves. */
  lemma {:induction false} IncThenInc(data: Fields, k: string, a: int, b: int, ts: int)
    requires Get(data, k).None? || Get(data, k).value.Num? || Get(data, k).value == Null
    ensures Merged(Some(data), map[k := Inc(Num(a))], false, ts).Ok?
    ensures
      var d1 := Merged(Some(data), map[k := Inc(Num(a))], false, ts).value;
      Merged(Some(d1), map[k := Inc(Num(b))], false, ts) == Merged(Some(data), map[k := Inc(Num(a + b))], false, ts)
  {
    var start := if Get(data, k).None? || Get(data, k).value == Null then 0 else Get(data, k).value.n;
    MergeOne(data, k, Inc(Num(a)), ts);
    var d1 := data[k := Num(start + a)];
    MergeOne(d1, k, Inc(Num(b)), ts);
    MergeOne(data, k, Inc(Num(a + b)), ts);
    assert d1[k := Num(start + a + b)] == data[k := Num(start + (a + b))];
  }

  /** A one-key payload that neither fails nor deletes sets that key. */
  lemma MergeOne(data: Fields, k: string, op: Op, ts: int)
    requires !Malformed(op) && !op.Del?
    ensures Merged(Some(data), map[k := op], false, ts)
         == Ok(data[k := FieldUpdate(Get(data, k), op, ts).value.value])
  {
    var p := map[k := op];
    var want := data[k := FieldUpdate(Get(data, k), op, ts).value.value];
    var m := Merged(Some(data), p, false, ts);
    assert m.Ok?;
    forall j ensures Get(m.value, j) == Get(want, j) {
      MergedGet(Some(data), p, false, ts, j);
    }
    SameGets(m.value, want);
  }

  /** A malformed operator anywhere in the payload fails the whole merge,
      whatever the document holds: no key is ever half-applied. */
  lemma MalformedFails(data: Option<Fields>, payload: map<string, Op>, overwrite: bool, ts: int, k: string)
    requires k in payload && Malformed(payload[k])
    ensures Merged(data, payload, overwrite, ts) == Err(WrongQuery)
  {
  }

  /** del removes the key, ts writes the block timestamp, a literal is
      stored as it is, a union appends, a remove filters the old array, and
      an inc adds to the field or to 0. */
  lemma {:induction false} MarkerEffects(data: Option<Fields>, payload: map<string, Op>, overwrite: bool, ts: int, k: string)
    requires Merged(data, payload, overwrite, ts).Ok? && k in payload
    ensures payload[k].Del? ==> k !in Merged(data, payload, overwrite, ts).value
    ensures payload[k].Ts? ==> Get(Merged(data, payload, overwrite, ts).value, k) == Some(Num(ts))
    ensures payload[k].Lit? ==> Get(Merged(data, payload, overwrite, ts).value, k) == Some(payload[k].v)
    ensures payload[k].Union? ==>
      Get(Merged(data, payload, overwrite, ts).value, k) == Some(Arr(AsArray(Get(Base(data, overwrite), k)) + payload[k].arr.items))
    ensures payload[k].Remove? ==>
      Get(Merged(data, payload, overwrite, ts).value, k) == Some(Arr(Without(payload[k].arr.items, AsArray(Get(Base(data, overwrite), k)))))
    ensures payload[k].Inc? ==>
      Get(Merged(data, payload, overwrite, ts).value, k) == Some(PlusNumber(IncStart(Get(Base(data, overwrite), k)), payload[k].n.n))
  {
    MergedGet(data, payload, overwrite, ts, k);
  }
}
