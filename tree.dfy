/** The path resolver, `getDoc` and `getCol`: a walk over the document tree
    along a path `[col, id, col, id, ...]` that creates missing collections
    and documents, stamps the document's `setter`, and (in `getDoc`) runs the
    rule gate of every collection it passes. The tree is a value here: each
    walk returns the tree as the source leaves it after its in-place updates. */
module Tree {
  import opened Json
  import opened Merge
  import opened Rules

  /** A collection: `{__docs, rules, schema}`. */
  datatype Col = Col(docs: map<string, Doc>, rules: Option<seq<Rule>>, schema: Option<Value>)

  /** A document: `{__data, setter, subs}`; `data == None` is a null
      `__data`, the "does not exist" state. */
  datatype Doc = Doc(data: Option<Fields>, setter: Option<string>, subs: map<string, Col>)

  type Cols = map<string, Col>

  /** What `data[col] ||= {__docs: {}}` creates. */
  const EmptyCol: Col := Col(map[], None, None)

  /** What `__docs[id] ||= {__data: null, subs: {}}` creates. */
  const EmptyDoc: Doc := Doc(None, None, map[])

  /** Ambient values of the host: block height, block timestamp and the
      transaction id. */
  datatype Env = Env(height: int, timestamp: int, txId: string)

  /** The walk's result: the tree after the walk, the terminal document and
      the schema and rules of the collection that holds it. */
  datatype Found = Found(tree: Cols, doc: Doc, schema: Option<Value>, rules: Option<seq<Rule>>)

  /** The property key of path position `i`; a position past the end is
      JavaScript's undefined, which names the key "undefined". */
  function Seg(path: seq<Value>, i: nat): string
  {
    if i < |path| then AsString(path[i]) else "undefined"
  }

  /** The property keys of a whole path. */
  function Keys(path: seq<Value>): (k: seq<string>)
    ensures |k| == |path|
    ensures forall i | 0 <= i < |path| :: k[i] == Seg(path, i)
  {
    if |path| == 0 then [] else [AsString(path[0])] + Keys(path[1..])
  }

  /** The key at position `i`, "undefined" past the end. */
  function Key(keys: seq<string>, i: nat): string
  {
    if i < |keys| then keys[i] else "undefined"
  }

  function ColOr(cols: Cols, c: string): Col
  {
    if c in cols then cols[c] else EmptyCol
  }

  function DocOr(col: Col, id: string): Doc
  {
    if id in col.docs then col.docs[id] else EmptyDoc
  }

  /** `if (!isNil(_signer) && isNil(doc.setter)) doc.setter = _signer`. */
  function Stamp(doc: Doc, signer: Option<string>): Doc
  {
    if signer.Some? && doc.setter.None? then doc.(setter := signer) else doc
  }

  /** The collection at a key path of odd length, if it exists. */
  function ColAt(cols: Cols, keys: seq<string>): Option<Col>
    decreases |keys|
  {
    if |keys| == 0 || keys[0] !in cols then None
    else if |keys| == 1 then Some(cols[keys[0]])
    else if |keys| == 2 || keys[1] !in cols[keys[0]].docs then None
    else ColAt(cols[keys[0]].docs[keys[1]].subs, keys[2..])
  }

  /** The document at a key path of even length, if it exists. */
  function DocAt(cols: Cols, keys: seq<string>): Option<Doc>
    decreases |keys|
  {
    if |keys| < 2 || keys[0] !in cols || keys[1] !in cols[keys[0]].docs then None
    else if |keys| == 2 then Some(cols[keys[0]].docs[keys[1]])
    else DocAt(cols[keys[0]].docs[keys[1]].subs, keys[2..])
  }

  // ---------------------------------------------------------------------
  // The rule gate of one level

  /** The would-be data the rules see as `resource.newData`: computed with
      the merge on a copy, only when the remaining path is one level long,
      with overwrite for set and add and without for update and upsert;
      null otherwise. */
  function Proposed(data: Option<Fields>, pathLen: nat, func: string, newData: Value, ts: int): Result<Option<Fields>>
  {
    if pathLen != 2 then Ok(None)
    else if func == "set" || func == "add" then
      match Merged(data, Payload(newData), true, ts)
      case Ok(m) => Ok(Some(m))
      case Err(e) => Err(e)
    else if func == "update" || func == "upsert" then
      match Merged(data, Payload(newData), false, ts)
      case Ok(m) => Ok(Some(m))
      case Err(e) => Err(e)
    else Ok(None)
  }

  /** The functions whose would-be data the rules see. */
  const Merging: seq<string> := ["set", "add", "update", "upsert"]

  /** The record built for the rules of one level. */
  function Context(data: Option<Fields>, setter: Option<string>, signer: Option<string>, newData: Value, proposed: Option<Fields>, env: Env): RuleCtx
  {
    RuleCtx(signer, env.height, env.timestamp, env.txId, newData, data, setter, proposed)
  }

  /** One level's gate passes: the function is not a write, or the
      collection has no rules, or the would-be data can be computed and the
      rules authorize the classified operation. */
  predicate Admits(rules: Option<seq<Rule>>, data: Option<Fields>, setter: Option<string>, pathLen: nat,
                   signer: Option<string>, func: string, newData: Value, env: Env, eval: (Value, RuleCtx) -> bool)
  {
    if func !in Writes || rules.None? then true
    else
      var proposed := Proposed(data, pathLen, func, newData, env.timestamp);
      && proposed.Ok?
      && Authorized(rules.value, OpClass(func, data), Context(data, setter, signer, newData, proposed.value, env), eval)
  }

  // ---------------------------------------------------------------------
  // The walks

  /** A level's gate, given the collection, the stamped document, the
      remaining path length and the payload that level sees. */
  type GateFn = (Col, Doc, nat, Value) -> bool

  /** The gate `getDoc` runs at every level. */
  function Gate(signer: Option<string>, func: string, env: Env, eval: (Value, RuleCtx) -> bool): GateFn
  {
    (col: Col, doc: Doc, pathLen: nat, payload: Value) =>
      Admits(col.rules, doc.data, doc.setter, pathLen, signer, func, payload, env, eval)
  }

  /** The walk of `getDoc` over the property keys of its path, with its
      gate as a parameter. The payload is handed to the first level only:
      the recursive call passes none, so deeper levels see it as undefined
      (here null). */
  function Walk(cols: Cols, keys: seq<string>, signer: Option<string>, payload: Value, gate: GateFn): (r: Result<Found>)
    ensures r.Err? ==> r.error == WrongQuery
    decreases |keys|
  {
    var c := Key(keys, 0);
    var id := Key(keys, 1);
    var col := ColOr(cols, c);
    var doc := Stamp(DocOr(col, id), signer);
    if !gate(col, doc, |keys|, payload) then Err(WrongQuery)
    else if |keys| >= 4 then
      match Walk(doc.subs, keys[2..], signer, Null, gate)
      case Err(e) => Err(e)
      case Ok(f) =>
        Ok(Found(cols[c := col.(docs := col.docs[id := doc.(subs := f.tree)])], f.doc, f.schema, f.rules))
    else
      Ok(Found(cols[c := col.(docs := col.docs[id := doc])], doc, col.schema, col.rules))
  }

  /** `getDoc(data, path, _signer, func, new_data)`. */
  function GetDoc(cols: Cols, path: seq<Value>, signer: Option<string>, func: string, newData: Value,
                  env: Env, eval: (Value, RuleCtx) -> bool): (r: Result<Found>)
    ensures r.Err? ==> r.error == WrongQuery
    ensures r.Ok? ==> Grows(cols, r.value.tree)
  {
    var r := Walk(cols, Keys(path), signer, newData, Gate(signer, func, env, eval));
    if r.Ok? then
      WalkGrows(cols, Keys(path), signer, newData, Gate(signer, func, env, eval));
      r
    else r
  }

  /** `getCol(data, path, _signer)`: walks to a collection; the walk stops
      when the document position is null or past the end. */
  function GetCol(cols: Cols, path: seq<Value>, signer: Option<string>): (r: (Cols, Col))
    ensures r.0.Keys == cols.Keys + {Seg(path, 0)}
    ensures forall c | c in cols && c != Seg(path, 0) :: r.0[c] == cols[c]
    ensures ColKept(ColOr(cols, Seg(path, 0)), r.0[Seg(path, 0)])
    decreases |path|
  {
    var c := Seg(path, 0);
    var col := ColOr(cols, c);
    if |path| < 2 || path[1] == Null then (cols[c := col], col)
    else
      var id := Seg(path, 1);
      var doc := Stamp(DocOr(col, id), signer);
      var (subs, target) := GetCol(doc.subs, path[2..], signer);
      (cols[c := col.(docs := col.docs[id := doc.(subs := subs)])], target)
  }

  // ---------------------------------------------------------------------
  // The tree only grows

  /** A collection keeps its rules and schema. */
  predicate ColKept(a: Col, b: Col)
  {
    a.rules == b.rules && a.schema == b.schema
  }

  /** A document keeps its data, and its setter once it has one. */
  predicate DocKept(a: Doc, b: Doc)
  {
    a.data == b.data && (a.setter.Some? ==> b.setter == a.setter)
  }

  /** Every collection and document of `a` is still in `b`, at the same
      path, with its rules, schema, data and any setter unchanged. */
  ghost predicate Grows(a: Cols, b: Cols)
  {
    && (forall q :: ColAt(a, q).Some? ==> ColAt(b, q).Some? && ColKept(ColAt(a, q).value, ColAt(b, q).value))
    && (forall q :: DocAt(a, q).Some? ==> DocAt(b, q).Some? && DocKept(DocAt(a, q).value, DocAt(b, q).value))
  }

  lemma GrowsRefl(a: Cols)
    ensures Grows(a, a)
  {
  }

  /** One level of a walk: replacing the document `id` of collection `c`
      (created when missing) by its stamped self with grown sub-collections
      grows the tree. */
  lemma {:induction false} GrowsStep(cols: Cols, c: string, id: string, signer: Option<string>, subs: Cols)
    requires Grows(DocOr(ColOr(cols, c), id).subs, subs)
    ensures
      var col := ColOr(cols, c);
      var doc := Stamp(DocOr(col, id), signer);
      Grows(cols, cols[c := col.(docs := col.docs[id := doc.(subs := subs)])])
  {
    var col := ColOr(cols, c);
    var doc0 := DocOr(col, id);
    var doc := Stamp(doc0, signer);
    var ncol := col.(docs := col.docs[id := doc.(subs := subs)]);
    var b := cols[c := ncol];
    forall q | ColAt(cols, q).Some?
      ensures ColAt(b, q).Some? && ColKept(ColAt(cols, q).value, ColAt(b, q).value)
    {
      if q[0] != c {
        assert ColOr(b, q[0]) == ColOr(cols, q[0]);
      } else if |q| > 2 {
        if q[1] != id {
          assert DocOr(ncol, q[1]) == DocOr(col, q[1]);
        } else {
          assert ColAt(cols, q) == ColAt(doc0.subs, q[2..]);
          assert ColAt(b, q) == ColAt(subs, q[2..]);
        }
      }
    }
    forall q | DocAt(cols, q).Some?
      ensures DocAt(b, q).Some? && DocKept(DocAt(cols, q).value, DocAt(b, q).value)
    {
      if q[0] != c {
        assert ColOr(b, q[0]) == ColOr(cols, q[0]);
      } else if q[1] != id {
        assert DocOr(ncol, q[1]) == DocOr(col, q[1]);
      } else if |q| > 2 {
        assert DocAt(cols, q) == DocAt(doc0.subs, q[2..]);
        assert DocAt(b, q) == DocAt(subs, q[2..]);
      }
    }
  }

  /** `getDoc` keeps every existing collection's rules and schema and every
      existing document's data and set setter, whatever its gates decide.
      It does stamp setter-less documents and grow sub-collections on its
      path. */
  lemma {:induction false} WalkGrows(cols: Cols, keys: seq<string>, signer: Option<string>, payload: Value, gate: GateFn)
    requires Walk(cols, keys, signer, payload, gate).Ok?
    ensures Grows(cols, Walk(cols, keys, signer, payload, gate).value.tree)
    decreases |keys|
  {
    var c := Key(keys, 0);
    var id := Key(keys, 1);
    var doc := Stamp(DocOr(ColOr(cols, c), id), signer);
    if |keys| >= 4 {
      WalkGrows(doc.subs, keys[2..], signer, Null, gate);
      GrowsStep(cols, c, id, signer, Walk(doc.subs, keys[2..], signer, Null, gate).value.tree);
    } else {
      GrowsRefl(doc.subs);
      GrowsStep(cols, c, id, signer, doc.subs);
    }
  }

  /** `getCol` grows the tree in the same way. */
  lemma {:induction false} GetColGrows(cols: Cols, path: seq<Value>, signer: Option<string>)
    ensures Grows(cols, GetCol(cols, path, signer).0)
    decreases |path|
  {
    var c := Seg(path, 0);
    var col := ColOr(cols, c);
    if |path| < 2 || path[1] == Null {
      var b := cols[c := col];
      forall q | ColAt(cols, q).Some?
        ensures ColAt(b, q).Some? && ColKept(ColAt(cols, q).value, ColAt(b, q).value)
      {
        assert ColOr(b, q[0]) == ColOr(cols, q[0]);
      }
      forall q | DocAt(cols, q).Some?
        ensures DocAt(b, q).Some? && DocKept(DocAt(cols, q).value, DocAt(b, q).value)
      {
        assert ColOr(b, q[0]) == ColOr(cols, q[0]);
      }
    } else {
      var id := Seg(path, 1);
      var doc := Stamp(DocOr(col, id), signer);
      GetColGrows(doc.subs, path[2..], signer);
      GrowsStep(cols, c, id, signer, GetCol(doc.subs, path[2..], signer).0);
    }
  }

  // ---------------------------------------------------------------------
  // Nothing off the path changes

  /** `q` is a prefix of the key path `keys`: the collections and documents
      a walk along `keys` passes through. */
  predicate OnPath(q: seq<string>, keys: seq<string>)
  {
    |q| <= |keys| && q == keys[..|q|]
  }

  /** A path that leaves `k` below its first level leaves the tail of `k`. */
  lemma OnPathTail(q: seq<string>, k: seq<string>)
    requires |q| >= 2 && |k| >= 2 && q[0] == k[0] && q[1] == k[1]
    requires !OnPath(q, k)
    ensures !OnPath(q[2..], k[2..])
  {
  }

  /** Below the first level, the document at a key path is the one at the
      tail, under the first document (an absent one has no sub-collections). */
  lemma DocAtDeeper(cols: Cols, k: seq<string>)
    requires |k| >= 3
    ensures DocAt(cols, k) == DocAt(DocOr(ColOr(cols, k[0]), k[1]).subs, k[2..])
  {
  }

  /** One level of a walk changes nothing at a key path other than `[c]`
      and `[c, id]`, provided the new sub-collections agree with the old
      ones below that path. */
  lemma {:induction false} StepFrame(cols: Cols, c: string, id: string, signer: Option<string>, subs: Cols, q: seq<string>)
    requires |q| >= 1 && q != [c] && q != [c, id]
    requires |q| >= 3 && q[0] == c && q[1] == id ==>
      && ColAt(subs, q[2..]) == ColAt(DocOr(ColOr(cols, c), id).subs, q[2..])
      && DocAt(subs, q[2..]) == DocAt(DocOr(ColOr(cols, c), id).subs, q[2..])
    ensures
      var col := ColOr(cols, c);
      var b := cols[c := col.(docs := col.docs[id := Stamp(DocOr(col, id), signer).(subs := subs)])];
      ColAt(b, q) == ColAt(cols, q) && DocAt(b, q) == DocAt(cols, q)
  {
    var col := ColOr(cols, c);
    var ncol := col.(docs := col.docs[id := Stamp(DocOr(col, id), signer).(subs := subs)]);
    var b := cols[c := ncol];
    if q[0] != c {
      assert ColOr(b, q[0]) == ColOr(cols, q[0]);
    } else if |q| >= 2 && q[1] != id {
      assert DocOr(ncol, q[1]) == DocOr(col, q[1]);
    } else if |q| >= 3 {
      ColAtDeeper(cols, q);
      DocAtDeeper(cols, q);
      ColAtDeeper(b, q);
      DocAtDeeper(b, q);
    }
  }

  /** `getDoc` changes nothing off its path: every collection and document
      whose key path is not a prefix of the walked path is as it was. Along
      the path it creates what is missing and stamps setters. */
  lemma {:induction false} WalkFrame(cols: Cols, keys: seq<string>, signer: Option<string>, payload: Value, gate: GateFn, q: seq<string>)
    requires |keys| >= 2
    requires Walk(cols, keys, signer, payload, gate).Ok?
    requires !OnPath(q, keys)
    ensures var tree := Walk(cols, keys, signer, payload, gate).value.tree;
      ColAt(tree, q) == ColAt(cols, q) && DocAt(tree, q) == DocAt(cols, q)
    decreases |keys|
  {
    var c := keys[0];
    var id := keys[1];
    assert Key(keys, 0) == c && Key(keys, 1) == id;
    assert q != [c] && q != [c, id] by {
      assert keys[..1] == [c] && keys[..2] == [c, id];
    }
    var col := ColOr(cols, c);
    var doc := Stamp(DocOr(col, id), signer);
    if |keys| >= 4 {
      var g := Walk(doc.subs, keys[2..], signer, Null, gate).value;
      if |q| >= 3 && q[0] == c && q[1] == id {
        OnPathTail(q, keys);
        WalkFrame(doc.subs, keys[2..], signer, Null, gate, q[2..]);
      }
      StepFrame(cols, c, id, signer, g.tree, q);
    } else {
      assert doc == doc.(subs := doc.subs);
      StepFrame(cols, c, id, signer, doc.subs, q);
    }
  }

  /** `getCol` changes nothing off the key path it follows. */
  lemma {:induction false} GetColFrame(cols: Cols, path: seq<Value>, signer: Option<string>, q: seq<string>)
    requires !OnPath(q, ColPath(path))
    ensures var tree := GetCol(cols, path, signer).0;
      ColAt(tree, q) == ColAt(cols, q) && DocAt(tree, q) == DocAt(cols, q)
    decreases |path|
  {
    var c := Seg(path, 0);
    var col := ColOr(cols, c);
    if |path| < 2 || path[1] == Null {
      assert ColPath(path)[..1] == [c];
      var b := cols[c := col];
      if q[0] == c && c !in cols {
        assert col.docs == map[];
      }
      assert q[0] != c ==> ColOr(b, q[0]) == ColOr(cols, q[0]);
    } else {
      var id := Seg(path, 1);
      var doc := Stamp(DocOr(col, id), signer);
      var k := ColPath(path);
      assert k == [c, id] + ColPath(path[2..]);
      assert q != [c] && q != [c, id] by {
        assert k[..1] == [c] && k[..2] == [c, id];
      }
      if |q| >= 3 && q[0] == c && q[1] == id {
        OnPathTail(q, k);
        assert k[2..] == ColPath(path[2..]);
        GetColFrame(doc.subs, path[2..], signer, q[2..]);
      }
      StepFrame(cols, c, id, signer, GetCol(doc.subs, path[2..], signer).0, q);
    }
  }

  // ---------------------------------------------------------------------
  // Level by level

  /** The document at level `j` of a key path as it was before the walk;
      a missing one is what the walk creates. */
  function PriorDoc(cols: Cols, keys: seq<string>, j: nat): Doc
    requires 2 * j + 2 <= |keys|
  {
    match DocAt(cols, keys[..2 * j + 2])
    case Some(d) => d
    case None => EmptyDoc
  }

  /** The collection at level `j` of a key path as it was before the walk. */
  function PriorCol(cols: Cols, keys: seq<string>, j: nat): Col
    requires 2 * j + 1 <= |keys|
  {
    match ColAt(cols, keys[..2 * j + 1])
    case Some(c) => c
    case None => EmptyCol
  }

  /** Level 0 is the document the walk's first step finds or creates. */
  lemma PriorFirst(cols: Cols, keys: seq<string>)
    requires |keys| >= 2
    ensures PriorDoc(cols, keys, 0) == DocOr(ColOr(cols, keys[0]), keys[1])
    ensures PriorCol(cols, keys, 0) == ColOr(cols, keys[0])
  {
  }

  /** Level `j` of a path is level `j - 1` of its tail, looked up in the
      sub-collections of the first document. */
  lemma {:induction false} PriorShift(cols: Cols, keys: seq<string>, j: nat)
    requires 1 <= j && 2 * j + 2 <= |keys|
    ensures var subs := DocOr(ColOr(cols, keys[0]), keys[1]).subs;
      && PriorDoc(cols, keys, j) == PriorDoc(subs, keys[2..], j - 1)
      && PriorCol(cols, keys, j) == PriorCol(subs, keys[2..], j - 1)
  {
    var subs := DocOr(ColOr(cols, keys[0]), keys[1]).subs;
    var kd := keys[..2 * j + 2];
    var kc := keys[..2 * j + 1];
    assert kd[0] == keys[0] && kd[1] == keys[1] && kd[2..] == keys[2..][..2 * (j - 1) + 2];
    assert kc[0] == keys[0] && kc[1] == keys[1] && kc[2..] == keys[2..][..2 * (j - 1) + 1];
    if keys[0] !in cols || keys[1] !in cols[keys[0]].docs {
      assert DocAt(subs, keys[2..][..2 * (j - 1) + 2]) == None;
      assert ColAt(subs, keys[2..][..2 * (j - 1) + 1]) == None;
    }
  }

  /** Every level's collection exists in `tree` with the rules and schema
      it had in `cols` (none, when it was created); every level's document
      exists with the data it had in `cols` (null, when it was created) and
      the setter the stamp gives it. */
  ghost predicate LevelsKept(cols: Cols, tree: Cols, keys: seq<string>, signer: Option<string>)
  {
    ColLevelsKept(cols, tree, keys) && DocLevelsKept(cols, tree, keys, signer)
  }

  /** The collection half of `LevelsKept`. */
  ghost predicate ColLevelsKept(cols: Cols, tree: Cols, keys: seq<string>)
  {
    forall j | 0 <= j < (|keys| + 1) / 2 ::
      && ColAt(tree, keys[..2 * j + 1]).Some?
      && ColKept(PriorCol(cols, keys, j), ColAt(tree, keys[..2 * j + 1]).value)
  }

  /** The document half of `LevelsKept`. */
  ghost predicate DocLevelsKept(cols: Cols, tree: Cols, keys: seq<string>, signer: Option<string>)
  {
    forall j | 0 <= j < |keys| / 2 ::
      && DocAt(tree, keys[..2 * j + 2]).Some?
      && DocAt(tree, keys[..2 * j + 2]).value.data == PriorDoc(cols, keys, j).data
      && DocAt(tree, keys[..2 * j + 2]).value.setter == Stamp(PriorDoc(cols, keys, j), signer).setter
  }

  /** The tree one level of the walk leaves: the document `keys[1]` of
      collection `keys[0]`, stamped, with sub-collections `sub`. */
  function Rebuilt(cols: Cols, keys: seq<string>, signer: Option<string>, sub: Cols): Cols
    requires |keys| >= 2
  {
    var col := ColOr(cols, keys[0]);
    var doc := Stamp(DocOr(col, keys[1]), signer);
    cols[keys[0] := col.(docs := col.docs[keys[1] := doc.(subs := sub)])]
  }

  /** Below the first level, the rebuilt tree is `sub`. */
  lemma DocAtRebuilt(cols: Cols, keys: seq<string>, signer: Option<string>, sub: Cols, m: nat)
    requires |keys| >= 2 && 2 < m <= |keys|
    ensures DocAt(Rebuilt(cols, keys, signer, sub), keys[..m]) == DocAt(sub, keys[2..][..m - 2])
  {
    var k := keys[..m];
    assert k[0] == keys[0] && k[1] == keys[1] && k[2..] == keys[2..][..m - 2];
  }

  /** Below the first level, the rebuilt tree's collections are `sub`'s. */
  lemma ColAtRebuilt(cols: Cols, keys: seq<string>, signer: Option<string>, sub: Cols, m: nat)
    requires |keys| >= 2 && 2 < m <= |keys|
    ensures ColAt(Rebuilt(cols, keys, signer, sub), keys[..m]) == ColAt(sub, keys[2..][..m - 2])
  {
    var k := keys[..m];
    assert k[0] == keys[0] && k[1] == keys[1] && k[2..] == keys[2..][..m - 2];
  }

  /** Levels below the first carry over from the walk of the tail. */
  lemma {:induction false} LevelsStep(cols: Cols, keys: seq<string>, signer: Option<string>, sub: Cols)
    requires |keys| >= 3
    requires LevelsKept(DocOr(ColOr(cols, keys[0]), keys[1]).subs, sub, keys[2..], signer)
    ensures LevelsKept(cols, Rebuilt(cols, keys, signer, sub), keys, signer)
  {
    ColLevelsStep(cols, keys, signer, sub);
    DocLevelsStep(cols, keys, signer, sub);
  }

  /** The collection half of `LevelsStep`. */
  lemma {:induction false} ColLevelsStep(cols: Cols, keys: seq<string>, signer: Option<string>, sub: Cols)
    requires |keys| >= 3
    requires ColLevelsKept(DocOr(ColOr(cols, keys[0]), keys[1]).subs, sub, keys[2..])
    ensures ColLevelsKept(cols, Rebuilt(cols, keys, signer, sub), keys)
  {
    var tree := Rebuilt(cols, keys, signer, sub);
    PriorFirst(cols, keys);
    forall j | 0 <= j < (|keys| + 1) / 2
      ensures && ColAt(tree, keys[..2 * j + 1]).Some?
              && ColKept(PriorCol(cols, keys, j), ColAt(tree, keys[..2 * j + 1]).value)
    {
      if j > 0 {
        PriorColShift(cols, keys, j);
        ColAtRebuilt(cols, keys, signer, sub, 2 * j + 1);
        assert 0 <= j - 1 < (|keys[2..]| + 1) / 2;
      } else {
        assert keys[..1][0] == keys[0];
      }
    }
  }

  /** The document half of `LevelsStep`. */
  lemma {:induction false} DocLevelsStep(cols: Cols, keys: seq<string>, signer: Option<string>, sub: Cols)
    requires |keys| >= 3
    requires DocLevelsKept(DocOr(ColOr(cols, keys[0]), keys[1]).subs, sub, keys[2..], signer)
    ensures DocLevelsKept(cols, Rebuilt(cols, keys, signer, sub), keys, signer)
  {
    var tree := Rebuilt(cols, keys, signer, sub);
    PriorFirst(cols, keys);
    forall j | 0 <= j < |keys| / 2
      ensures && DocAt(tree, keys[..2 * j + 2]).Some?
              && DocAt(tree, keys[..2 * j + 2]).value.data == PriorDoc(cols, keys, j).data
              && DocAt(tree, keys[..2 * j + 2]).value.setter == Stamp(PriorDoc(cols, keys, j), signer).setter
    {
      if j > 0 {
        PriorShift(cols, keys, j);
        DocAtRebuilt(cols, keys, signer, sub, 2 * j + 2);
        assert 0 <= j - 1 < |keys[2..]| / 2;
      } else {
        assert keys[..2][0] == keys[0] && keys[..2][1] == keys[1];
      }
    }
  }

  /** The first level of a one-level walk. */
  lemma LevelsBase(cols: Cols, keys: seq<string>, signer: Option<string>)
    requires |keys| == 2
    ensures LevelsKept(cols, Rebuilt(cols, keys, signer, DocOr(ColOr(cols, keys[0]), keys[1]).subs), keys, signer)
  {
    PriorFirst(cols, keys);
    assert keys[..2] == keys && keys[..1] == [keys[0]];
  }

  /** Below the first level, the rebuilt tree at the whole path is `sub`
      at the tail. */
  lemma DocAtRebuiltWhole(cols: Cols, keys: seq<string>, signer: Option<string>, sub: Cols)
    requires |keys| > 2
    ensures DocAt(Rebuilt(cols, keys, signer, sub), keys) == DocAt(sub, keys[2..])
  {
  }

  /** The terminal document of the walk along an even, non-empty path is in
      the new tree at the path. */
  lemma {:induction false} WalkTerminalAt(cols: Cols, keys: seq<string>, signer: Option<string>, payload: Value, gate: GateFn)
    requires |keys| >= 2 && |keys| % 2 == 0
    requires Walk(cols, keys, signer, payload, gate).Ok?
    ensures var f := Walk(cols, keys, signer, payload, gate).value;
      DocAt(f.tree, keys) == Some(f.doc)
    decreases |keys|
  {
    var doc := Stamp(DocOr(ColOr(cols, keys[0]), keys[1]), signer);
    if |keys| >= 4 {
      var g := Walk(doc.subs, keys[2..], signer, Null, gate).value;
      WalkTerminalAt(doc.subs, keys[2..], signer, Null, gate);
      assert Walk(cols, keys, signer, payload, gate).value.tree == Rebuilt(cols, keys, signer, g.tree);
      DocAtRebuiltWhole(cols, keys, signer, g.tree);
    }
  }

  /** The terminal document is the one that was at the path (or a new one)
      stamped with the signer, and it comes with the schema and rules of
      its collection. */
  lemma {:induction false} WalkTerminal(cols: Cols, keys: seq<string>, signer: Option<string>, payload: Value, gate: GateFn)
    requires |keys| >= 2 && |keys| % 2 == 0
    requires Walk(cols, keys, signer, payload, gate).Ok?
    ensures var f := Walk(cols, keys, signer, payload, gate).value;
      && f.doc == Stamp(PriorDoc(cols, keys, |keys| / 2 - 1), signer)
      && f.schema == PriorCol(cols, keys, |keys| / 2 - 1).schema
      && f.rules == PriorCol(cols, keys, |keys| / 2 - 1).rules
    decreases |keys|
  {
    if |keys| >= 4 {
      var subs := Stamp(DocOr(ColOr(cols, keys[0]), keys[1]), signer).subs;
      WalkDeeper(cols, keys, signer, payload, gate);
      WalkTerminal(subs, keys[2..], signer, Null, gate);
      PriorShift(cols, keys, |keys| / 2 - 1);
    } else {
      PriorFirst(cols, keys);
    }
  }

  /** A walk of more than one level ends where the walk from the first
      document's sub-collections ends. */
  lemma WalkDeeper(cols: Cols, keys: seq<string>, signer: Option<string>, payload: Value, gate: GateFn)
    requires |keys| >= 4
    requires Walk(cols, keys, signer, payload, gate).Ok?
    ensures var subs := Stamp(DocOr(ColOr(cols, keys[0]), keys[1]), signer).subs;
      var f := Walk(cols, keys, signer, payload, gate).value;
      && Walk(subs, keys[2..], signer, Null, gate).Ok?
      && var g := Walk(subs, keys[2..], signer, Null, gate).value;
      && f.doc == g.doc && f.schema == g.schema && f.rules == g.rules
  {
  }

  /** What the walk leaves at every level of an even, non-empty path: the
      document exists, its data is what it was (null when it was created),
      and its setter is the old one when there was one and the signer
      otherwise. */
  lemma {:induction false} WalkLevels(cols: Cols, keys: seq<string>, signer: Option<string>, payload: Value, gate: GateFn)
    requires |keys| >= 2 && |keys| % 2 == 0
    requires Walk(cols, keys, signer, payload, gate).Ok?
    ensures LevelsKept(cols, Walk(cols, keys, signer, payload, gate).value.tree, keys, signer)
    decreases |keys|
  {
    var f := Walk(cols, keys, signer, payload, gate).value;
    var doc := Stamp(DocOr(ColOr(cols, keys[0]), keys[1]), signer);
    if |keys| >= 4 {
      var g := Walk(doc.subs, keys[2..], signer, Null, gate).value;
      WalkLevels(doc.subs, keys[2..], signer, Null, gate);
      assert f.tree == Rebuilt(cols, keys, signer, g.tree);
      LevelsStep(cols, keys, signer, g.tree);
    } else {
      assert f.tree == Rebuilt(cols, keys, signer, doc.subs);
      LevelsBase(cols, keys, signer);
    }
  }

  /** Level `j` of a path's collections, for `j >= 1`, is level `j - 1`
      of its tail's. */
  lemma {:induction false} PriorColShift(cols: Cols, keys: seq<string>, j: nat)
    requires 1 <= j && 2 * j + 1 <= |keys|
    ensures PriorCol(cols, keys, j) == PriorCol(DocOr(ColOr(cols, keys[0]), keys[1]).subs, keys[2..], j - 1)
  {
    var subs := DocOr(ColOr(cols, keys[0]), keys[1]).subs;
    var kc := keys[..2 * j + 1];
    assert kc[0] == keys[0] && kc[1] == keys[1] && kc[2..] == keys[2..][..2 * (j - 1) + 1];
    if keys[0] !in cols || keys[1] !in cols[keys[0]].docs {
      assert ColAt(subs, keys[2..][..2 * (j - 1) + 1]) == None;
    }
  }

  /** Every level's gate passes, fed with the document as it was before the
      walk (stamped with the signer); the payload reaches the first level
      only. */
  ghost predicate AllGates(cols: Cols, keys: seq<string>, signer: Option<string>, payload: Value, gate: GateFn)
    requires |keys| % 2 == 0
  {
    forall j | 0 <= j < |keys| / 2 ::
      gate(PriorCol(cols, keys, j), Stamp(PriorDoc(cols, keys, j), signer), |keys| - 2 * j,
           if j == 0 then payload else Null)
  }

  /** Level `j` of a path, for `j >= 1`, is level `j - 1` of its tail. */
  lemma LevelsShift(cols: Cols, keys: seq<string>, signer: Option<string>)
    requires |keys| >= 4 && |keys| % 2 == 0
    ensures var subs := DocOr(ColOr(cols, keys[0]), keys[1]).subs;
      forall j | 1 <= j < |keys| / 2 ::
        && PriorDoc(cols, keys, j) == PriorDoc(subs, keys[2..], j - 1)
        && PriorCol(cols, keys, j) == PriorCol(subs, keys[2..], j - 1)
  {
    forall j | 1 <= j < |keys| / 2 {
      PriorShift(cols, keys, j);
    }
  }

  /** The gates of a path pass when the first level's gate and the gates of
      its tail, below the first document and without the payload, pass. */
  lemma AllGatesUp(cols: Cols, keys: seq<string>, signer: Option<string>, payload: Value, gate: GateFn)
    requires |keys| >= 4 && |keys| % 2 == 0
    requires var doc := Stamp(DocOr(ColOr(cols, keys[0]), keys[1]), signer);
      gate(ColOr(cols, keys[0]), doc, |keys|, payload) && AllGates(doc.subs, keys[2..], signer, Null, gate)
    ensures AllGates(cols, keys, signer, payload, gate)
  {
    var doc := Stamp(DocOr(ColOr(cols, keys[0]), keys[1]), signer);
    var tail := keys[2..];
    PriorFirst(cols, keys);
    LevelsShift(cols, keys, signer);
    forall j | 0 <= j < |keys| / 2
      ensures gate(PriorCol(cols, keys, j), Stamp(PriorDoc(cols, keys, j), signer), |keys| - 2 * j,
                   if j == 0 then payload else Null)
    {
      if j > 0 {
        assert j - 1 < |tail| / 2;
      }
    }
  }

  /** Conversely, the gates of a path include the first level's gate and
      the gates of its tail. */
  lemma AllGatesDown(cols: Cols, keys: seq<string>, signer: Option<string>, payload: Value, gate: GateFn)
    requires |keys| >= 4 && |keys| % 2 == 0
    requires AllGates(cols, keys, signer, payload, gate)
    ensures var doc := Stamp(DocOr(ColOr(cols, keys[0]), keys[1]), signer);
      gate(ColOr(cols, keys[0]), doc, |keys|, payload) && AllGates(doc.subs, keys[2..], signer, Null, gate)
  {
    var doc := Stamp(DocOr(ColOr(cols, keys[0]), keys[1]), signer);
    var tail := keys[2..];
    PriorFirst(cols, keys);
    LevelsShift(cols, keys, signer);
    assert gate(PriorCol(cols, keys, 0), Stamp(PriorDoc(cols, keys, 0), signer), |keys|, payload);
    forall j | 0 <= j < |tail| / 2
      ensures gate(PriorCol(doc.subs, tail, j), Stamp(PriorDoc(doc.subs, tail, j), signer), |tail| - 2 * j, Null)
    {
      assert 1 <= j + 1 < |keys| / 2;
      assert PriorDoc(cols, keys, j + 1) == PriorDoc(doc.subs, tail, j);
      assert PriorCol(cols, keys, j + 1) == PriorCol(doc.subs, tail, j);
      assert |keys| - 2 * (j + 1) == |tail| - 2 * j;
    }
  }

  /** The rule gates: the walk along an even, non-empty path succeeds
      exactly when the gate of every level passes. */
  lemma {:induction false} WalkGates(cols: Cols, keys: seq<string>, signer: Option<string>, payload: Value, gate: GateFn)
    requires |keys| >= 2 && |keys| % 2 == 0
    ensures Walk(cols, keys, signer, payload, gate).Ok? <==> AllGates(cols, keys, signer, payload, gate)
    decreases |keys|
  {
    var doc := Stamp(DocOr(ColOr(cols, keys[0]), keys[1]), signer);
    PriorFirst(cols, keys);
    if |keys| >= 4 {
      WalkGates(doc.subs, keys[2..], signer, Null, gate);
      if AllGates(cols, keys, signer, payload, gate) {
        AllGatesDown(cols, keys, signer, payload, gate);
      }
      if Walk(cols, keys, signer, payload, gate).Ok? {
        AllGatesUp(cols, keys, signer, payload, gate);
      }
    }
  }

  // ---------------------------------------------------------------------
  // getDoc with its rule gate

  /** Below the first level the payload is not forwarded, so the rules of
      a terminal document reached through a longer path see, as the would-be
      data, `{}` for set and add and the current data (or `{}`) for update
      and upsert. */
  lemma UnforwardedPayload(data: Option<Fields>, func: string, ts: int)
    requires func == "set" || func == "add" || func == "update" || func == "upsert"
    ensures Proposed(data, 2, func, Null, ts)
         == Ok(Some(if func == "set" || func == "add" || data.None? then map[] else data.value))
  {
    var p := Payload(Null);
    assert p == map[];
    var overwrite := func == "set" || func == "add";
    var m := Merged(data, p, overwrite, ts);
    assert m.Ok?;
    var want: Fields := if overwrite || data.None? then map[] else data.value;
    forall k ensures Get(m.value, k) == Get(want, k) {
      MergedGet(data, p, overwrite, ts, k);
    }
    SameGets(m.value, want);
  }

  /** Only the last level of a set, add, update or upsert computes the
      would-be data. */
  lemma ProposedWhen(data: Option<Fields>, pathLen: nat, func: string, newData: Value, ts: int)
    requires pathLen != 2 || func !in Merging
    ensures Proposed(data, pathLen, func, newData, ts) == Ok(None)
  {
  }

  /** The would-be data fails exactly when the payload holds a malformed
      operator. */
  lemma ProposedFails(data: Option<Fields>, func: string, newData: Value, ts: int)
    requires func in Merging
    ensures Proposed(data, 2, func, newData, ts).Err? <==>
      exists k | k in Payload(newData) :: Malformed(Payload(newData)[k])
  {
    var p := Payload(newData);
    var overwrite := func == "set" || func == "add";
    MergedFails(data, p, overwrite, ts);
    assert Proposed(data, 2, func, newData, ts).Err? <==> Merged(data, p, overwrite, ts).Err?;
  }

  /** For set and add the would-be data does not depend on what the
      document held and has only payload keys. */
  lemma ProposedSet(data: Option<Fields>, func: string, newData: Value, ts: int)
    requires func == "set" || func == "add"
    requires Proposed(data, 2, func, newData, ts).Ok?
    ensures Proposed(data, 2, func, newData, ts) == Proposed(None, 2, func, newData, ts)
    ensures Proposed(data, 2, func, newData, ts).value.value.Keys <= Payload(newData).Keys
  {
    OverwriteForgets(data, None, Payload(newData), ts);
  }

  /** For update and upsert the fields the payload does not name keep their
      values in the would-be data. */
  lemma ProposedUpdate(data: Fields, func: string, newData: Value, ts: int, k: string)
    requires func == "update" || func == "upsert"
    requires Proposed(Some(data), 2, func, newData, ts).Ok?
    requires k !in Payload(newData)
    ensures Get(Proposed(Some(data), 2, func, newData, ts).value.value, k) == Get(data, k)
  {
    MergeKeepsUnnamed(data, Payload(newData), ts, k);
  }

  /** A read always passes a level's gate, and so does a write to a
      collection without rules. */
  lemma GateOpen(rules: Option<seq<Rule>>, data: Option<Fields>, setter: Option<string>, pathLen: nat,
                 signer: Option<string>, func: string, newData: Value, env: Env, eval: (Value, RuleCtx) -> bool)
    requires func !in Writes || rules.None?
    ensures Admits(rules, data, setter, pathLen, signer, func, newData, env, eval)
  {
  }

  /** A write fails a level's gate when the collection's rule list is empty,
      and at the last level when its payload holds a malformed operator,
      before any rule is looked at. */
  lemma GateClosed(rules: seq<Rule>, data: Option<Fields>, setter: Option<string>, pathLen: nat,
                   signer: Option<string>, func: string, newData: Value, env: Env, eval: (Value, RuleCtx) -> bool)
    requires func in Writes
    requires || rules == []
             || (pathLen == 2 && func in Merging && exists k | k in Payload(newData) :: Malformed(Payload(newData)[k]))
    ensures !Admits(Some(rules), data, setter, pathLen, signer, func, newData, env, eval)
  {
    if pathLen == 2 && func in Merging {
      ProposedFails(data, func, newData, env.timestamp);
    }
  }

  /** A write passes a level's gate with rules only through a well-formed
      allow rule. */
  lemma GateNeedsAllow(rules: seq<Rule>, data: Option<Fields>, setter: Option<string>, pathLen: nat,
                       signer: Option<string>, func: string, newData: Value, env: Env, eval: (Value, RuleCtx) -> bool)
    requires func in Writes
    requires Admits(Some(rules), data, setter, pathLen, signer, func, newData, env, eval)
    ensures exists i | 0 <= i < |rules| :: !KeyMalformed(rules[i]) && Permission(rules[i]) == "allow"
  {
  }

  /** Path elements are property keys: two paths whose elements convert to
      the same strings address the same document, so a numeric id and its
      decimal text are one id, and null is the id "null". */
  lemma KeyCoercion(cols: Cols, p: seq<Value>, q: seq<Value>, signer: Option<string>, func: string, newData: Value,
                    env: Env, eval: (Value, RuleCtx) -> bool)
    requires |p| == |q| && forall i | 0 <= i < |p| :: AsString(p[i]) == AsString(q[i])
    ensures GetDoc(cols, p, signer, func, newData, env, eval) == GetDoc(cols, q, signer, func, newData, env, eval)
  {
    assert Keys(p) == Keys(q);
  }

  /** The instances of `KeyCoercion` for a number and for null. */
  lemma NumberAndNullIds(cols: Cols, c: string, n: int, signer: Option<string>, func: string, newData: Value,
                         env: Env, eval: (Value, RuleCtx) -> bool)
    ensures GetDoc(cols, [Str(c), Num(n)], signer, func, newData, env, eval)
         == GetDoc(cols, [Str(c), Str(Decimal(n))], signer, func, newData, env, eval)
    ensures GetDoc(cols, [Str(c), Null], signer, func, newData, env, eval)
         == GetDoc(cols, [Str(c), Str("null")], signer, func, newData, env, eval)
  {
    KeyCoercion(cols, [Str(c), Num(n)], [Str(c), Str(Decimal(n))], signer, func, newData, env, eval);
    KeyCoercion(cols, [Str(c), Null], [Str(c), Str("null")], signer, func, newData, env, eval);
  }

  /** Reads are never gated: a function that is not a write resolves every
      even, non-empty path. */
  lemma ReadsResolve(cols: Cols, path: seq<Value>, signer: Option<string>, func: string, newData: Value,
                     env: Env, eval: (Value, RuleCtx) -> bool)
    requires |path| >= 2 && |path| % 2 == 0
    requires func !in Writes
    ensures GetDoc(cols, path, signer, func, newData, env, eval).Ok?
  {
    WalkGates(cols, Keys(path), signer, newData, Gate(signer, func, env, eval));
  }

  // ---------------------------------------------------------------------
  // Where getCol lands

  /** The key path of the collection `getCol` returns: an odd path names a
      collection; an even one reaches a document and then the property
      `undefined` of its sub-collections. */
  function ColKeys(path: seq<Value>): (k: seq<string>)
    ensures |k| % 2 == 1
  {
    if |path| % 2 == 1 then Keys(path) else Keys(path) + ["undefined"]
  }

  /** Every document position of the path holds a value (not null). */
  predicate IdsPresent(path: seq<Value>)
  {
    forall i | 0 <= i < |path| && i % 2 == 1 :: path[i] != Null
  }

  lemma KeysTail(path: seq<Value>)
    requires |path| >= 2
    ensures Keys(path) == [Seg(path, 0), Seg(path, 1)] + Keys(path[2..])
  {
    assert path[1..][1..] == path[2..];
  }

  lemma ColKeysTail(path: seq<Value>)
    requires |path| >= 2
    ensures ColKeys(path) == [Seg(path, 0), Seg(path, 1)] + ColKeys(path[2..])
  {
    KeysTail(path);
    var head := [Seg(path, 0), Seg(path, 1)];
    var rest := Keys(path[2..]);
    assert |path[2..]| % 2 == |path| % 2;
    if |path| % 2 == 0 {
      assert head + rest + ["undefined"] == head + (rest + ["undefined"]);
    }
  }

  /** The key path `getCol` follows: a collection key and an id per level,
      until the id is missing (past the end) or null, and then the last
      collection key. */
  function ColPath(path: seq<Value>): (k: seq<string>)
    ensures |k| % 2 == 1
    decreases |path|
  {
    if |path| < 2 || path[1] == Null then [Seg(path, 0)]
    else [Seg(path, 0), Seg(path, 1)] + ColPath(path[2..])
  }

  /** When no id of the path is null, `getCol` follows the path's own keys,
      with "undefined" after an even path. */
  lemma {:induction false} ColPathKeys(path: seq<Value>)
    requires IdsPresent(path)
    ensures ColPath(path) == ColKeys(path)
    decreases |path|
  {
    if |path| < 2 {
      assert ColKeys(path) == [Seg(path, 0)];
    } else {
      assert path[1] != Null;
      var tail := path[2..];
      assert IdsPresent(tail) by {
        forall i | 0 <= i < |tail| && i % 2 == 1 ensures tail[i] != Null {
          assert tail[i] == path[i + 2];
        }
      }
      ColPathKeys(tail);
      ColKeysTail(path);
    }
  }

  /** `getCol` returns the collection at `ColPath(path)` of the new tree,
      which is the one that was there before, or a new empty one. */
  lemma {:induction false} GetColResolves(cols: Cols, path: seq<Value>, signer: Option<string>)
    ensures var (tree, target) := GetCol(cols, path, signer);
      && ColAt(tree, ColPath(path)) == Some(target)
      && target == (match ColAt(cols, ColPath(path)) case Some(c) => c case None => EmptyCol)
    decreases |path|
  {
    var c := Seg(path, 0);
    var col := ColOr(cols, c);
    if |path| >= 2 && path[1] != Null {
      var id := Seg(path, 1);
      var doc := Stamp(DocOr(col, id), signer);
      var tail := path[2..];
      GetColResolves(doc.subs, tail, signer);
      var k := ColPath(path);
      assert k[0] == c && k[1] == id && k[2..] == ColPath(tail);
      ColAtDeeper(cols, k);
      ColAtDeeper(GetCol(cols, path, signer).0, k);
    }
  }

  /** What `getCol` leaves at every level of the key path it follows: each
      collection exists with its old rules and schema (none, when it was
      created), and each document with its old data (null, when it was
      created) and its old setter, or the signer if it had none. */
  lemma {:induction false} GetColLevels(cols: Cols, path: seq<Value>, signer: Option<string>)
    ensures LevelsKept(cols, GetCol(cols, path, signer).0, ColPath(path), signer)
    decreases |path|
  {
    var c := Seg(path, 0);
    var col := ColOr(cols, c);
    var k := ColPath(path);
    if |path| < 2 || path[1] == Null {
      assert k == [c] && k[..1] == k;
    } else {
      var id := Seg(path, 1);
      var doc := Stamp(DocOr(col, id), signer);
      var tail := path[2..];
      GetColLevels(doc.subs, tail, signer);
      assert k[0] == c && k[1] == id && k[2..] == ColPath(tail);
      assert GetCol(cols, path, signer).0 == Rebuilt(cols, k, signer, GetCol(doc.subs, tail, signer).0);
      LevelsStep(cols, k, signer, GetCol(doc.subs, tail, signer).0);
    }
  }

  /** A null id stops `getCol` early: the path `[col, null, ...]` gives the
      collection `col` itself, whatever follows. */
  lemma NullIdStops(cols: Cols, path: seq<Value>, signer: Option<string>)
    requires |path| >= 2 && path[1] == Null
    ensures GetCol(cols, path, signer).1 == ColOr(cols, Seg(path, 0))
    ensures GetCol(cols, path, signer).0 == cols[Seg(path, 0) := ColOr(cols, Seg(path, 0))]
  {
  }

  /** Below the first level, the collection at a key path is the one at the
      tail, under the first document (an absent one has no sub-collections). */
  lemma ColAtDeeper(cols: Cols, k: seq<string>)
    requires |k| >= 3
    ensures ColAt(cols, k) == ColAt(DocOr(ColOr(cols, k[0]), k[1]).subs, k[2..])
  {
  }
}
