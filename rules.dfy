/** The rule gate inside `getDoc`: classification of the operation, parsing
    of rule keys of the form "<allow|deny> <op,op,...>", and the fold of the
    matching rules into an allow/deny decision. The expression language the
    rules are written in is evaluated by a foreign library; the model takes
    its evaluator as a parameter `eval`, assumed to be total (it always
    returns a truth value and never throws). */
module Rules {
  import opened Json

  /** One entry of a collection's rules, in declaration order. */
  datatype Rule = Rule(key: string, expr: Value)

  /** The record a rule expression is evaluated against:
      request.auth.signer, request.block.{height,timestamp},
      request.transaction.id, request.resource.data (the raw payload),
      resource.data, resource.setter and resource.newData. */
  datatype RuleCtx = RuleCtx(
    signer: Option<string>,
    height: int,
    timestamp: int,
    txId: string,
    requestData: Value,
    data: Option<Fields>,
    setter: Option<string>,
    newData: Option<Fields>)

  /** String.prototype.split with a one-character separator. */
  function Split(s: string, sep: char): (parts: seq<string>)
    ensures |parts| >= 1
    ensures forall i | 0 <= i < |parts| :: sep !in parts[i]
    decreases |s|
  {
    if |s| == 0 then [""]
    else
      var rest := Split(s[1..], sep);
      if s[0] == sep then [""] + rest
      else [[s[0]] + rest[0]] + rest[1..]
  }

  /** Array.prototype.join with a one-character separator. */
  function Join(parts: seq<string>, sep: char): string
    requires |parts| >= 1
  {
    if |parts| == 1 then parts[0] else parts[0] + [sep] + Join(parts[1..], sep)
  }

  /** Splitting loses nothing: joining the parts gives the string back. */
  lemma {:induction false} SplitJoin(s: string, sep: char)
    ensures Join(Split(s, sep), sep) == s
    decreases |s|
  {
    if |s| > 0 {
      SplitJoin(s[1..], sep);
      var rest := Split(s[1..], sep);
      if s[0] == sep {
        assert Split(s, sep)[1..] == rest;
      } else if |rest| > 1 {
        assert Split(s, sep)[1..] == rest[1..];
        assert s == [s[0]] + s[1..];
      }
    }
  }

  /** A string splits into at least two parts exactly when it contains the
      separator. */
  lemma {:induction false} SplitHasTwoParts(s: string, sep: char)
    ensures |Split(s, sep)| >= 2 <==> sep in s
    decreases |s|
  {
    if |s| > 0 {
      SplitHasTwoParts(s[1..], sep);
      assert s == [s[0]] + s[1..];
    }
  }

  /** A string without the separator is one part. */
  lemma {:induction false} SplitWhole(s: string, sep: char)
    requires sep !in s
    ensures Split(s, sep) == [s]
    decreases |s|
  {
    if |s| > 0 {
      SplitWhole(s[1..], sep);
      assert s == [s[0]] + s[1..];
    }
  }

  /** The first separator ends the first part. */
  lemma {:induction false} SplitFirst(a: string, b: string, sep: char)
    requires sep !in a
    ensures Split(a + [sep] + b, sep) == [a] + Split(b, sep)
    decreases |a|
  {
    var s := a + [sep] + b;
    if |a| == 0 {
      assert s[0] == sep && s[1..] == b;
    } else {
      assert s[0] == a[0] && s[1..] == a[1..] + [sep] + b;
      SplitFirst(a[1..], b, sep);
      assert [a[0]] + a[1..] == a;
    }
  }

  /** `k.split(" ")` yields no second part, so `_ops.split(",")` throws. */
  predicate KeyMalformed(r: Rule)
  {
    |Split(r.key, ' ')| < 2
  }

  /** The permission word of a well-formed key. */
  function Permission(r: Rule): string
  {
    Split(r.key, ' ')[0]
  }

  /** The comma-separated operation list of a well-formed key. */
  function KeyOps(r: Rule): seq<string>
    requires !KeyMalformed(r)
  {
    Split(Split(r.key, ' ')[1], ',')
  }

  /** The rule is evaluated: its operation list meets {"write", op}. */
  predicate Applies(r: Rule, op: string)
  {
    !KeyMalformed(r) && ("write" in KeyOps(r) || op in KeyOps(r))
  }

  predicate Grants(r: Rule, op: string, ctx: RuleCtx, eval: (Value, RuleCtx) -> bool)
  {
    Applies(r, op) && Permission(r) == "allow" && eval(r.expr, ctx)
  }

  predicate Denies(r: Rule, op: string, ctx: RuleCtx, eval: (Value, RuleCtx) -> bool)
  {
    Applies(r, op) && Permission(r) == "deny" && eval(r.expr, ctx)
  }

  /** The decision, stated without the loop: no key throws, no applicable
      deny is true, and some applicable allow is true. */
  predicate Authorized(rules: seq<Rule>, op: string, ctx: RuleCtx, eval: (Value, RuleCtx) -> bool)
  {
    && (forall i | 0 <= i < |rules| :: !KeyMalformed(rules[i]) && !Denies(rules[i], op, ctx, eval))
    && (exists i | 0 <= i < |rules| :: Grants(rules[i], op, ctx, eval))
  }

  /** The `for (let k in rules)` loop: `allowed` is raised by a true
      applicable allow, a true applicable deny throws at once, and the call
      throws after the loop unless something allowed it. */
  method CheckRules(rules: seq<Rule>, op: string, ctx: RuleCtx, eval: (Value, RuleCtx) -> bool)
    returns (ok: bool)
    ensures ok == Authorized(rules, op, ctx, eval)
  {
    var allowed := false;
    var i := 0;
    while i < |rules|
      invariant 0 <= i <= |rules|
      invariant forall j | 0 <= j < i :: !KeyMalformed(rules[j]) && !Denies(rules[j], op, ctx, eval)
      invariant allowed <==> exists j | 0 <= j < i :: Grants(rules[j], op, ctx, eval)
    {
      var parts := Split(rules[i].key, ' ');
      if |parts| < 2 {
        return false;
      }
      var ops := Split(parts[1], ',');
      if "write" in ops || op in ops {
        var verdict := eval(rules[i].expr, ctx);
        if parts[0] == "allow" && verdict {
          allowed := true;
        } else if parts[0] == "deny" && verdict {
          return false;
        }
      }
      i := i + 1;
    }
    return allowed;
  }

  /** A true applicable deny fails the call whatever any allow says. */
  lemma DenyWins(rules: seq<Rule>, op: string, ctx: RuleCtx, eval: (Value, RuleCtx) -> bool, i: nat)
    requires i < |rules| && Denies(rules[i], op, ctx, eval)
    ensures !Authorized(rules, op, ctx, eval)
  {
  }

  /** Rules are an allow-list: without a true applicable allow the call
      fails, so an empty rule list admits no write at all. */
  lemma AllowNeeded(rules: seq<Rule>, op: string, ctx: RuleCtx, eval: (Value, RuleCtx) -> bool)
    requires forall i | 0 <= i < |rules| :: !Grants(rules[i], op, ctx, eval)
    ensures !Authorized(rules, op, ctx, eval)
    ensures !Authorized([], op, ctx, eval)
  {
  }

  // ---------------------------------------------------------------------
  // Operation classification

  /** The functions whose calls the rules gate. */
  const Writes: seq<string> := ["set", "add", "update", "upsert", "delete"]

  /** `hay.indexOf(needle) >= 0`. */
  predicate Occurs(needle: string, hay: string)
    decreases |hay|
  {
    if |needle| > |hay| then false
    else hay[..|needle|] == needle || (|hay| > 0 && Occurs(needle, hay[1..]))
  }

  /** The operation name the rules see. `includes(op)("set", "add")` applies
      the curried `includes(op)` to the one argument "set", a string, so it
      asks whether `op` occurs in "set"; "add" is not turned into "create". */
  function OpClass(func: string, data: Option<Fields>): (op: string)
    ensures op == func || op == "create" || op == "update"
    ensures op != func ==> Occurs(func, "set") || func == "upsert" || func == "create"
    ensures data.Some? ==> op != "create"
    ensures data.None? && op == "update" ==> func == "update"
  {
    var op0 := if Occurs(func, "set") then "create" else func;
    var op1 := if op0 == "create" && data.Some? then "update" else op0;
    if op1 == "upsert" then (if data.Some? then "update" else "create") else op1
  }

  /** The classification of each write function: set and upsert become
      create, or update when the document has data; update and delete are
      unchanged; add stays "add". */
  lemma OpClassTable(data: Option<Fields>)
    ensures OpClass("set", data) == (if data.Some? then "update" else "create")
    ensures OpClass("upsert", data) == (if data.Some? then "update" else "create")
    ensures OpClass("update", data) == "update"
    ensures OpClass("delete", data) == "delete"
    ensures OpClass("add", data) == "add"
  {
    assert Occurs("set", "set");
    assert !Occurs("upsert", "set");
    assert !Occurs("update", "set");
    assert !Occurs("delete", "set");
    assert !Occurs("add", "set") by {
      assert "set"[..3] != "add";
      assert !Occurs("add", "set"[1..]);
    }
  }

  lemma PeopleKeyParts()
    ensures "allow create,update" == "allow" + [' '] + "create,update"
    ensures ' ' !in "allow" && ' ' !in "create,update"
  {
  }

  lemma SplitPeopleKey()
    ensures Split("allow create,update", ' ') == ["allow", "create,update"]
  {
    PeopleKeyParts();
    SplitWhole("create,update", ' ');
    SplitFirst("allow", "create,update", ' ');
  }

  lemma SplitPeopleOps()
    ensures Split("create,update", ',') == ["create", "update"]
  {
    assert "create,update" == "create" + [','] + "update";
    SplitWhole("update", ',');
    SplitFirst("create", "update", ',');
  }

  /** The key "allow create,update" of the rule set used with a collection of
      people is an allow that applies to a create and to an update (an add,
      classified as "add", is reached only by "write" or "add" entries). */
  lemma CreateUpdateKey(r: Rule)
    requires r.key == "allow create,update"
    ensures Permission(r) == "allow"
    ensures Applies(r, "create") && Applies(r, "update")
  {
    SplitPeopleKey();
    SplitPeopleOps();
  }
}
