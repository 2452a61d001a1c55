/** Re-running a query whose reattach position was lost.

    `PlanScan` is the worklist search for inline user code; `QueryClient` is the
    stack of `_execute_and_fetch` hooks: the replay hook inside the hook that
    closes the query's progress bar.
 */
module PlanScan {
  import opened Prelude

  /** A protobuf message: its type name and its set fields. */
  datatype Message = Message(name: string, fields: seq<Field>)

  /** A set field: a message, text, a repeated field or map, or a value that
      cannot be iterated. */
  datatype Field = Sub(message: Message) | Text(text: string) | Repeated(items: seq<Item>) | Scalar(n: int)

  datatype Item = Nested(message: Message) | Plain(n: int)

  const USER_CODE_MESSAGES :=
    {"spark.connect.CommonInlineUserDefinedFunction", "spark.connect.CommonInlineUserDefinedTableFunction"}

  /** Whether a UDF or UDTF occurs anywhere in the tree. */
  predicate HasUserCode(m: Message) {
    m.name in USER_CODE_MESSAGES || exists i :: 0 <= i < |m.fields| && FieldHasUserCode(m.fields[i])
  }

  predicate FieldHasUserCode(f: Field) {
    match f
    case Sub(m) => HasUserCode(m)
    case Repeated(items) => exists i :: 0 <= i < |items| && ItemHasUserCode(items[i])
    case Text(_) => false
    case Scalar(_) => false
  }

  predicate ItemHasUserCode(item: Item) {
    item.Nested? && HasUserCode(item.message)
  }

  // The same said by paths: where in the tree the message is.

  /** A step down the tree: a field, and an item if that is repeated. */
  datatype Hop = Hop(field: nat, item: nat)

  function Child(m: Message, hop: Hop): Option<Message> {
    if hop.field >= |m.fields| then None
    else match m.fields[hop.field]
         case Sub(child) => Some(child)
         case Repeated(items) =>
           if hop.item < |items| && items[hop.item].Nested? then Some(items[hop.item].message) else None
         case _ => None
  }

  ghost predicate LeadsToUserCode(m: Message, path: seq<Hop>) {
    if path == [] then
      || m.name == "spark.connect.CommonInlineUserDefinedFunction"
      || m.name == "spark.connect.CommonInlineUserDefinedTableFunction"
    else
      Child(m, path[0]).Some? && LeadsToUserCode(Child(m, path[0]).value, path[1..])
  }

  lemma {:induction false} PathHasUserCode(m: Message, path: seq<Hop>)
    requires LeadsToUserCode(m, path)
    ensures HasUserCode(m)
    decreases |path|
  {
    if path != [] {
      PathHasUserCode(Child(m, path[0]).value, path[1..]);
      var f := m.fields[path[0].field];
      if f.Repeated? {
        assert ItemHasUserCode(f.items[path[0].item]);
      }
      assert FieldHasUserCode(f);
    }
  }

  lemma {:induction false} UserCodeHasPath(m: Message) returns (path: seq<Hop>)
    requires HasUserCode(m)
    ensures LeadsToUserCode(m, path)
  {
    path := [];
    if m.name !in USER_CODE_MESSAGES {
      var i :| 0 <= i < |m.fields| && FieldHasUserCode(m.fields[i]);
      var hop, rest;
      match m.fields[i] {
        case Sub(child) =>
          hop := Hop(i, 0);
          rest := UserCodeHasPath(child);
        case Repeated(items) =>
          var k :| 0 <= k < |items| && ItemHasUserCode(items[k]);
          hop := Hop(i, k);
          rest := UserCodeHasPath(items[k].message);
      }
      path := [hop] + rest;
      assert path[1..] == rest;
    }
  }

  /** There is user code in a message exactly when some path down the tree ends at a
      UDF or a UDTF. */
  lemma UserCodeIffPath(m: Message)
    ensures HasUserCode(m) <==> exists path :: LeadsToUserCode(m, path)
  {
    hide HasUserCode, LeadsToUserCode;
    if HasUserCode(m) {
      var path := UserCodeHasPath(m);
      assert LeadsToUserCode(m, path);
    }
    forall path | LeadsToUserCode(m, path)
      ensures HasUserCode(m)
    {
      PathHasUserCode(m, path);
    }
  }

  predicate AnyHasUserCode(stack: seq<Message>) {
    exists i :: 0 <= i < |stack| && HasUserCode(stack[i])
  }

  // Sizes, for the termination of the search.
  function Size(m: Message): nat {
    1 + FieldsSize(m.fields)
  }

  function FieldsSize(fields: seq<Field>): nat {
    if fields == [] then 0 else FieldSize(fields[0]) + FieldsSize(fields[1..])
  }

  function FieldSize(f: Field): nat {
    match f
    case Sub(m) => Size(m)
    case Repeated(items) => ItemsSize(items)
    case Text(_) => 0
    case Scalar(_) => 0
  }

  function ItemsSize(items: seq<Item>): nat {
    if items == [] then 0 else ItemSize(items[0]) + ItemsSize(items[1..])
  }

  function ItemSize(item: Item): nat {
    if item.Nested? then Size(item.message) else 0
  }

  function StackSize(stack: seq<Message>): nat {
    if stack == [] then 0 else StackSize(stack[..|stack| - 1]) + Size(Last(stack))
  }

  lemma Pushed(stack: seq<Message>, m: Message)
    ensures StackSize(stack + [m]) == StackSize(stack) + Size(m)
    ensures AnyHasUserCode(stack + [m]) <==> AnyHasUserCode(stack) || HasUserCode(m)
  {
    assert (stack + [m])[..|stack|] == stack;
    assert (stack + [m])[|stack|] == m;
    if AnyHasUserCode(stack) {
      var i :| 0 <= i < |stack| && HasUserCode(stack[i]);
      assert (stack + [m])[i] == stack[i];
    }
  }

  /** The messages of a repeated field, pushed in order. */
  method PushItems(stack: seq<Message>, items: seq<Item>) returns (pushed: seq<Message>)
    ensures StackSize(pushed) == StackSize(stack) + ItemsSize(items)
    ensures AnyHasUserCode(pushed) <==> AnyHasUserCode(stack) || FieldHasUserCode(Repeated(items))
  {
    pushed := stack;
    var i := 0;
    while i < |items|
      invariant 0 <= i <= |items|
      invariant StackSize(pushed) + ItemsSize(items[i..]) == StackSize(stack) + ItemsSize(items)
      invariant AnyHasUserCode(pushed) <==>
                AnyHasUserCode(stack) || exists k :: 0 <= k < i && ItemHasUserCode(items[k])
    {
      assert items[i..][1..] == items[i + 1..];
      if items[i].Nested? {
        Pushed(pushed, items[i].message);
        pushed := pushed + [items[i].message];
      }
      i := i + 1;
    }
  }

  method PushFields(stack: seq<Message>, fields: seq<Field>) returns (pushed: seq<Message>)
    ensures StackSize(pushed) == StackSize(stack) + FieldsSize(fields)
    ensures AnyHasUserCode(pushed) <==>
            AnyHasUserCode(stack) || exists k :: 0 <= k < |fields| && FieldHasUserCode(fields[k])
  {
    pushed := stack;
    var i := 0;
    while i < |fields|
      invariant 0 <= i <= |fields|
      invariant StackSize(pushed) + FieldsSize(fields[i..]) == StackSize(stack) + FieldsSize(fields)
      invariant AnyHasUserCode(pushed) <==>
                AnyHasUserCode(stack) || exists k :: 0 <= k < i && FieldHasUserCode(fields[k])
    {
      assert fields[i..][1..] == fields[i + 1..];
      match fields[i] {
        case Sub(m) =>
          Pushed(pushed, m);
          pushed := pushed + [m];
        case Text(_) =>
        case Repeated(items) =>
          pushed := PushItems(pushed, items);
        case Scalar(_) =>
      }
      i := i + 1;
    }
  }

  /** The stack worklist terminates and agrees with the tree predicate. */
  method RunsInlineUserCode(msg: Message) returns (found: bool)
    ensures found <==> HasUserCode(msg)
  {
    var stack := [msg];
    assert stack[0] == msg;
    while stack != []
      invariant AnyHasUserCode(stack) <==> HasUserCode(msg)
      decreases StackSize(stack)
    {
      var m := Last(stack);
      var rest := stack[..|stack| - 1];
      assert rest + [m] == stack;
      Pushed(rest, m);
      if m.name in USER_CODE_MESSAGES {
        return true;
      }
      stack := PushFields(rest, m.fields);
    }
    found := false;
  }
}

module QueryReplay {
  import opened Prelude
  import opened PlanScan
  import opened ProgressBars

  datatype PlanKind = Root | Command | Unset

  datatype RequestOption = Reattach(reattachable: bool) | Other(value: string)

  function WithoutReattach(options: seq<RequestOption>): seq<RequestOption> {
    if options == [] then []
    else WithoutReattach(options[..|options| - 1]) + if Last(options).Reattach? then [] else [Last(options)]
  }

  /** What is kept is exactly the other options, whatever reattach options an
      attempt appended. */
  lemma {:induction false} AppendedReattachIsDropped(options: seq<RequestOption>, appended: seq<RequestOption>)
    requires forall o :: o in appended ==> o.Reattach?
    ensures WithoutReattach(options + appended) == WithoutReattach(options)
    ensures forall o :: o in WithoutReattach(options) <==> o in options && !o.Reattach?
    decreases |appended|, |options|
  {
    if appended == [] {
      assert options + appended == options;
      if options != [] {
        AppendedReattachIsDropped(options[..|options| - 1], []);
        assert options == options[..|options| - 1] + [Last(options)];
      }
    } else {
      var init := appended[..|appended| - 1];
      assert (options + appended)[..|options + appended| - 1] == options + init;
      assert Last(options + appended) == Last(appended);
      AppendedReattachIsDropped(options, init);
    }
  }

  /** What is kept is in its order, as often as it was there. */
  lemma OthersStayInOrder(a: seq<RequestOption>, b: seq<RequestOption>)
    ensures WithoutReattach(a + b) == WithoutReattach(a) + WithoutReattach(b)
    ensures (forall o :: o in a ==> !o.Reattach?) ==> WithoutReattach(a) == a
  {
    OptionsAppend(a, b);
    NoneDropped(a);
  }

  lemma {:induction false} OptionsAppend(a: seq<RequestOption>, b: seq<RequestOption>)
    ensures WithoutReattach(a + b) == WithoutReattach(a) + WithoutReattach(b)
  {
    if b != [] {
      OptionsAppend(a, b[..|b| - 1]);
      assert (a + b)[..|a + b| - 1] == a + b[..|b| - 1];
    } else {
      assert a + b == a;
    }
  }

  lemma {:induction false} NoneDropped(a: seq<RequestOption>)
    ensures (forall o :: o in a ==> !o.Reattach?) ==> WithoutReattach(a) == a
  {
    if a != [] {
      NoneDropped(a[..|a| - 1]);
      assert a == a[..|a| - 1] + [Last(a)];
    }
  }

  datatype Snapshot = Snapshot(operationId: OpId, kind: PlanKind, plan: Message, options: seq<RequestOption>)

  class Request {
    var operationId: OpId
    var kind: PlanKind
    var plan: Message
    var options: seq<RequestOption>

    function View(): Snapshot
      reads this
    {
      Snapshot(operationId, kind, plan, options)
    }

    constructor (view: Snapshot)
      ensures View() == view
    {
      operationId, kind, plan, options := view.operationId, view.kind, view.plan, view.options;
    }
  }

  /** A copy of `req` under a fresh operation id, without reattach options. */
  method ReplayRequest(req: Request, freshId: OpId) returns (retry: Request)
    ensures fresh(retry)
    ensures retry.View() == req.View().(operationId := freshId, options := WithoutReattach(req.options))
  {
    retry := new Request(req.View());
    retry.operationId := freshId;
    var keep: seq<RequestOption> := [];
    var i := 0;
    while i < |retry.options|
      invariant 0 <= i <= |retry.options|
      invariant keep == WithoutReattach(retry.options[..i])
      invariant retry.View() == req.View().(operationId := freshId)
    {
      assert retry.options[..i + 1][..i] == retry.options[..i];
      if !retry.options[i].Reattach? {
        keep := keep + [retry.options[i]];
      }
      i := i + 1;
    }
    assert retry.options[..i] == retry.options;
    retry.options := keep;
  }

  datatype Outcome = Rows(rows: seq<string>) | PositionLost | Failed(error: string)

  /** What one attempt does: the options pyspark appends to its request, the
      progress-bar actions under it (its own and other threads'), its outcome. */
  datatype Attempt = Attempt(appended: seq<RequestOption>, actions: seq<Action>, outcome: Outcome)

  datatype Event = PositionLostEvent(operationId: OpId, newOperationId: Option<OpId>, replay: bool)

  function ActAll(r: Registry, actions: seq<Action>): Registry {
    if actions == [] then r else Act(ActAll(r, actions[..|actions| - 1]), Last(actions))
  }

  ghost predicate Touches(a: Action, op: OpId) {
    match a
    case HandlerCall(report, _) => report.op == Some(op)
    case CloseCall(o, _) => o == op
  }

  lemma {:induction false} UntouchedStaysClosed(r: Registry, actions: seq<Action>, op: OpId)
    requires op !in r.bars
    requires forall a :: a in actions ==> !Touches(a, op)
    ensures op !in ActAll(r, actions).bars
  {
    if actions != [] {
      UntouchedStaysClosed(r, actions[..|actions| - 1], op);
      assert !Touches(Last(actions), op);
    }
  }

  /** The bars after the replay hook: those of the first attempt, and for a replay
      the operation's own closed before the second attempt, and the new one's after it. */
  ghost function BarsAfter(r: Registry, replayed: bool, op: OpId, freshId: OpId, first: Attempt, second: Attempt)
      : Registry
  {
    var once := ActAll(r, first.actions);
    if !replayed then once
    else ClosedBar(ActAll(ClosedBar(once, op, "replay"), second.actions), freshId, "query_end")
  }

  class QueryClient {
    const enabled: bool
    const bars: ProgressBars
    var calls: seq<Snapshot>   // the request of every call of the innermost method
    var events: seq<Event>

    constructor (enabled: bool, bars: ProgressBars)
      ensures this.enabled == enabled && this.bars == bars && calls == [] && events == []
    {
      this.enabled, this.bars, calls, events := enabled, bars, [], [];
    }

    method Interleaved(actions: seq<Action>)
      modifies bars
      ensures bars.View() == ActAll(old(bars.View()), actions)
    {
      var i := 0;
      while i < |actions|
        invariant 0 <= i <= |actions|
        invariant bars.View() == ActAll(old(bars.View()), actions[..i])
      {
        assert actions[..i + 1][..i] == actions[..i];
        match actions[i] {
          case HandlerCall(report, shown) => bars.Handle(report, shown);
          case CloseCall(op, reason) => bars.CloseProgressBar(op, reason);
        }
        i := i + 1;
      }
      assert actions[..i] == actions;
    }

    /** The request hook: a request built by the client has an operation id. */
    method PlanRequest(req: Request, newId: OpId)
      modifies req`operationId
      ensures req.operationId == if old(req.operationId) == "" then newId else old(req.operationId)
    {
      if req.operationId == "" {
        req.operationId := newId;
      }
    }

    /** pyspark's own `_execute_and_fetch`. */
    method Inner(req: Request, attempt: Attempt) returns (outcome: Outcome)
      modifies this`calls, req`options, bars
      ensures calls == old(calls) + [old(req.View())]
      ensures req.options == old(req.options) + attempt.appended
      ensures bars.View() == ActAll(old(bars.View()), attempt.actions)
      ensures outcome == attempt.outcome
    {
      calls := calls + [req.View()];
      req.options := req.options + attempt.appended;
      Interleaved(attempt.actions);
      outcome := attempt.outcome;
    }

    /** The replay hook. The second attempt happens for a lost position of a
        replayable plan only; its request is the caller's, but for the id and the
        reattach options. */
    method ReplayHook(req: Request, first: Attempt, second: Attempt, freshId: OpId) returns (outcome: Outcome)
      requires forall o :: o in first.appended ==> o.Reattach?
      modifies this, req`options, bars
      ensures
        var asked := old(req.View());
        var replayed := first.outcome.PositionLost? && enabled && asked.kind == Root && !HasUserCode(asked.plan);
        && outcome == (if replayed then second.outcome else first.outcome)
        && calls == old(calls) + [asked] +
             (if replayed then [asked.(operationId := freshId, options := WithoutReattach(asked.options))] else [])
        && events == old(events) +
             (if !first.outcome.PositionLost? then []
              else if !replayed then [PositionLostEvent(asked.operationId, None, false)]
              else [PositionLostEvent(asked.operationId, Some(freshId), true)] +
                   if second.outcome.PositionLost? then [PositionLostEvent(freshId, None, false)] else [])
        && bars.View() == BarsAfter(old(bars.View()), replayed, asked.operationId, freshId, first, second)
        && (replayed && freshId != "" ==> freshId !in bars.bars)
      ensures |calls| == |old(calls)| + 2
              <==> (&& first.outcome.PositionLost? && enabled && old(req.kind) == Root
                    && !HasUserCode(old(req.plan)))
    {
      hide HasUserCode, ActAll, WithoutReattach;
      outcome := Inner(req, first);
      if !outcome.PositionLost? {
        return;
      }
      var userCode := RunsInlineUserCode(req.plan);
      if !enabled || !req.kind.Root? || userCode {
        events := events + [PositionLostEvent(req.operationId, None, false)];
        return;
      }
      AppendedReattachIsDropped(old(req.options), first.appended);
      var retry := ReplayRequest(req, freshId);
      events := events + [PositionLostEvent(req.operationId, Some(freshId), true)];
      bars.CloseProgressBar(req.operationId, "replay");
      outcome := Inner(retry, second);
      if outcome.PositionLost? {
        events := events + [PositionLostEvent(retry.operationId, None, false)];
      }
      bars.CloseProgressBar(retry.operationId, "query_end");
    }

    /** The whole stack. `between` is what other operations do to the registry
        after the replay hook and before the outer close. */
    method ExecuteAndFetch(req: Request, first: Attempt, second: Attempt, freshId: OpId, between: seq<Action>)
        returns (outcome: Outcome)
      requires forall o :: o in first.appended ==> o.Reattach?
      requires forall a :: a in between ==> !Touches(a, freshId)
      modifies this, req`options, bars
      ensures |calls| <= |old(calls)| + 2 && old(calls) <= calls
      ensures |calls| == |old(calls)| + 2
              <==> (&& first.outcome.PositionLost? && enabled && old(req.kind) == Root
                    && !HasUserCode(old(req.plan)))
      ensures
        var asked := old(req.View());
        var replayed := |calls| == |old(calls)| + 2;
        && outcome == (if replayed then second.outcome else first.outcome)
        && calls == old(calls) + [asked] +
             (if replayed then [asked.(operationId := freshId, options := WithoutReattach(asked.options))] else [])
        && bars.View() ==
           ClosedBar(ActAll(BarsAfter(old(bars.View()), replayed, asked.operationId, freshId, first, second), between),
                     asked.operationId, "query_end")
      ensures old(req.operationId) != "" ==> old(req.operationId) !in bars.bars
      ensures |calls| == |old(calls)| + 2 && freshId != "" ==> freshId !in bars.bars
    {
      outcome := ReplayHook(req, first, second, freshId);
      ghost var before := bars.View();
      Interleaved(between);
      if freshId !in before.bars {
        UntouchedStaysClosed(before, between, freshId);
      }
      bars.CloseProgressBar(req.operationId, "query_end");
    }

    /** A query whose request the client built: whatever id the caller gave, neither
        the operation nor its replay has an open bar afterwards. */
    method Query(req: Request, newId: OpId, first: Attempt, second: Attempt, freshId: OpId, between: seq<Action>)
        returns (outcome: Outcome)
      requires newId != "" && freshId != ""
      requires forall o :: o in first.appended ==> o.Reattach?
      requires forall a :: a in between ==> !Touches(a, freshId)
      modifies this, req, bars
      ensures req.operationId !in bars.bars
      ensures |calls| == |old(calls)| + 2 ==> freshId !in bars.bars
    {
      PlanRequest(req, newId);
      outcome := ExecuteAndFetch(req, first, second, freshId, between);
    }
  }
}
