/** `parse`: the validation every write and schema/rules call goes through.
    It splits the query into payload and path, draws and records a new id
    for `add`, rejects malformed requests, resolves the path with `getDoc`
    or `getCol`, checks the owner for `setSchema`/`setRules` and runs the
    collection's schema on the raw payload. The schema validator is a
    foreign library, taken as a parameter `validate(schema, payload)`. */
module Parse {
  import opened Json
  import opened Rules
  import opened Tree
  import opened Ids

  /** The contract state `parse` reads and changes: the document tree, the
      owner, and the ids generated per transaction. */
  datatype State = State(data: Cols, owner: string, ids: map<string, seq<string>>)

  /** What the path resolves to: a document, or a collection for the
      schema and rules functions. */
  datatype Target = DocTarget(doc: Doc) | ColTarget(col: Col)

  /** `{data, query, new_data, path, _data, schema}`, with the state after
      the call. */
  datatype Parsed = Parsed(state: State, newData: Value, path: seq<Value>, target: Target, schema: Option<Value>)

  /** Functions whose query is the path alone. */
  const PathOnly: seq<string> := ["delete", "getSchema", "getRules"]

  /** Functions that address a collection through `getCol`. */
  const ColFuncs: seq<string> := ["setSchema", "getSchema", "setRules", "getRules"]

  /** Functions whose payload the schema validates. */
  const Validated: seq<string> := ["set", "add", "update", "upsert"]

  /** Functions reserved to the contract owner. */
  predicate OwnerOnly(func: string)
  {
    func == "setSchema" || func == "setRules"
  }

  /** `new_data`: the first query element, undefined (null) when the query
      is empty or is the path alone. */
  function PayloadOf(func: string, query: seq<Value>): Value
  {
    if func in PathOnly || |query| == 0 then Null else query[0]
  }

  /** The id `genId` draws, when every digest is usable. */
  function NewId(digest: nat -> seq<byte>): Option<string>
  {
    match Rands(digest, 20)
    case Some(rs) => Some(IdFrom(rs))
    case None => None
  }

  /** The path: the query, or the query after its payload, with the new id
      appended for `add`. */
  function PathOf(func: string, query: seq<Value>, digest: nat -> seq<byte>): Option<seq<Value>>
  {
    if func in PathOnly then Some(query)
    else
      var rest := if |query| == 0 then [] else query[1..];
      if func != "add" then Some(rest)
      else match NewId(digest)
        case Some(id) => Some(rest + [Str(id)])
        case None => None
  }

  /** The shape errors: a missing payload, an empty path, or a path of odd
      length for a function that addresses a document. */
  predicate BadShape(func: string, newData: Value, path: seq<Value>)
  {
    || (newData == Null && func !in PathOnly)
    || |path| == 0
    || (|path| % 2 != 0 && func !in ColFuncs)
  }

  /** The ids recorded for a transaction so far. */
  function IdsOf(ids: map<string, seq<string>>, tx: string): seq<string>
  {
    if tx in ids then ids[tx] else []
  }

  /** When `parse` returns: the path can be formed, the request is well
      shaped, the document path resolves through every rule gate, an
      owner-only function is called by the owner, and a validated write
      passes the schema of its collection. */
  predicate Accepted(st: State, query: seq<Value>, func: string, signer: Option<string>, caller: string,
                     env: Env, digest: nat -> seq<byte>, validate: (Value, Value) -> bool,
                     eval: (Value, RuleCtx) -> bool)
  {
    var newData := PayloadOf(func, query);
    && PathOf(func, query, digest).Some?
    && var path := PathOf(func, query, digest).value;
    && !BadShape(func, newData, path)
    && (OwnerOnly(func) ==> caller == st.owner)
    && (func !in ColFuncs ==>
          && GetDoc(st.data, path, signer, func, newData, env, eval).Ok?
          && var schema := GetDoc(st.data, path, signer, func, newData, env, eval).value.schema;
             (func in Validated && schema.Some? ==> validate(schema.value, newData)))
  }

  /** The payload and path of the query, with the ids after recording the
      id drawn for `add`; none when the id cannot be drawn. */
  method SplitQuery(ids: map<string, seq<string>>, query: seq<Value>, func: string, tx: string,
                    digest: nat -> seq<byte>)
    returns (r: Option<(Value, seq<Value>, map<string, seq<string>>)>)
    ensures r.Some? <==> PathOf(func, query, digest).Some?
    ensures r.Some? ==>
      && r.value.0 == PayloadOf(func, query)
      && r.value.1 == PathOf(func, query, digest).value
      && r.value.2 == (if func == "add" then ids[tx := IdsOf(ids, tx) + [NewId(digest).value]] else ids)
  {
    var newData := Null;
    var path: seq<Value>;
    var next := ids;
    if func in PathOnly {
      path := query;
    } else {
      newData := if |query| == 0 then Null else query[0];
      path := if |query| == 0 then [] else query[1..];
      if func == "add" {
        var id := GenId(digest);
        if id.None? {
          return None;
        }
        next := next[tx := IdsOf(next, tx) + [id.value]];
        path := path + [Str(id.value)];
      }
    }
    return Some((newData, path, next));
  }

  /** The resolution step: `getCol` for the schema and rules functions,
      `getDoc` for the others. */
  method Resolve(data: Cols, path: seq<Value>, func: string, signer: Option<string>, newData: Value,
                 env: Env, eval: (Value, RuleCtx) -> bool)
    returns (r: Result<(Cols, Target, Option<Value>)>)
    ensures func in ColFuncs ==>
      r == Ok((GetCol(data, path, signer).0, ColTarget(GetCol(data, path, signer).1), None))
    ensures func !in ColFuncs ==>
      && (r.Ok? <==> GetDoc(data, path, signer, func, newData, env, eval).Ok?)
      && (r.Err? ==> r.error == WrongQuery)
      && (r.Ok? ==>
            var f := GetDoc(data, path, signer, func, newData, env, eval).value;
            r.value == (f.tree, DocTarget(f.doc), f.schema))
    ensures r.Ok? ==> Grows(data, r.value.0)
  {
    if func in ColFuncs {
      var (tree, col) := GetCol(data, path, signer);
      GetColGrows(data, path, signer);
      return Ok((tree, ColTarget(col), None));
    }
    var found := GetDoc(data, path, signer, func, newData, env, eval);
    if found.Err? {
      return Err(found.error);
    }
    WalkGrows(data, Keys(path), signer, newData, Gate(signer, func, env, eval));
    return Ok((found.value.tree, DocTarget(found.value.doc), found.value.schema));
  }

  /** `parse(state, action, func, signer)`. A failure is a throw, after which
      the host keeps the state as it was before the call. */
  method Parse(st: State, query: seq<Value>, func: string, signer: Option<string>, caller: string,
               env: Env, digest: nat -> seq<byte>, validate: (Value, Value) -> bool,
               eval: (Value, RuleCtx) -> bool)
    returns (r: Result<Parsed>)
    ensures r.Ok? <==> Accepted(st, query, func, signer, caller, env, digest, validate, eval)
    // which failure
    ensures (&& PathOf(func, query, digest).Some?
             && !BadShape(func, PayloadOf(func, query), PathOf(func, query, digest).value)
             && OwnerOnly(func) && caller != st.owner) ==> r == Err(NotOwner)
    ensures r.Err? && !(OwnerOnly(func) && caller != st.owner) ==> r == Err(WrongQuery)
    // what is returned
    ensures r.Ok? ==>
      var p := r.value;
      && p.newData == PayloadOf(func, query)
      && Some(p.path) == PathOf(func, query, digest)
      && p.state.owner == st.owner
      && Grows(st.data, p.state.data)
      && p.state.ids == (if func == "add" then st.ids[env.txId := IdsOf(st.ids, env.txId) + [NewId(digest).value]] else st.ids)
    ensures r.Ok? && func in ColFuncs ==>
      && r.value.state.data == GetCol(st.data, r.value.path, signer).0
      && r.value.target == ColTarget(GetCol(st.data, r.value.path, signer).1)
      && r.value.schema.None?
    ensures r.Ok? && func !in ColFuncs ==>
      var f := GetDoc(st.data, r.value.path, signer, func, r.value.newData, env, eval).value;
      && r.value.state.data == f.tree
      && r.value.target == DocTarget(f.doc)
      && r.value.schema == f.schema
  {
    var split := SplitQuery(st.ids, query, func, env.txId, digest);
    if split.None? {
      return Err(WrongQuery);
    }
    var (newData, path, ids) := split.value;
    if || (newData == Null && func !in PathOnly)
       || |path| == 0
       || (|path| % 2 != 0 && func !in ColFuncs)
    {
      return Err(WrongQuery);
    }
    var resolved := Resolve(st.data, path, func, signer, newData, env, eval);
    if resolved.Err? {
      return Err(resolved.error);
    }
    var (data, target, schema) := resolved.value;
    var refused := Admit(func, signer, caller, st.owner, target, schema, newData, validate);
    if refused.Some? {
      return Err(refused.value);
    }
    return Ok(Parsed(State(data, st.owner, ids), newData, path, target, schema));
  }

  /** The checks after resolution: the owner check of `setSchema` and
      `setRules`, skipped (with nothing in its place) for an update, upsert
      or delete of a document set by someone else, then the schema. */
  method Admit(func: string, signer: Option<string>, caller: string, owner: string, target: Target,
               schema: Option<Value>, newData: Value, validate: (Value, Value) -> bool)
    returns (refused: Option<Error>)
    ensures refused.None? <==>
      (OwnerOnly(func) ==> caller == owner) && (func in Validated && schema.Some? ==> validate(schema.value, newData))
    ensures refused.Some? ==> refused.value == (if OwnerOnly(func) && caller != owner then NotOwner else WrongQuery)
  {
    if (func == "update" || func == "upsert" || func == "delete") && target.DocTarget? && target.doc.setter != signer {
      // no ownership check is made for these functions
    } else if OwnerOnly(func) && caller != owner {
      return Some(NotOwner);
    }
    if func in Validated && schema.Some? && !validate(schema.value, newData) {
      return Some(WrongQuery);
    }
    return None;
  }

  /** No ownership check: an update of an existing document by a signer
      other than the one recorded as its setter is accepted when the
      collection has neither rules nor schema, and the document keeps its
      setter. */
  lemma StrangerMayUpdate(st: State, c: string, id: string, d: Value, signer: Option<string>, caller: string,
                          env: Env, digest: nat -> seq<byte>, validate: (Value, Value) -> bool,
                          eval: (Value, RuleCtx) -> bool)
    requires c in st.data && id in st.data[c].docs
    requires st.data[c].docs[id].setter.Some? && st.data[c].docs[id].setter != signer
    requires st.data[c].rules.None? && st.data[c].schema.None?
    requires d != Null
    ensures Accepted(st, [d, Str(c), Str(id)], "update", signer, caller, env, digest, validate, eval)
    ensures GetDoc(st.data, [Str(c), Str(id)], signer, "update", d, env, eval).value.doc.setter
         == st.data[c].docs[id].setter
  {
    var path := [Str(c), Str(id)];
    assert [d, Str(c), Str(id)][1..] == path;
    assert Keys(path) == [c, id];
  }
}
