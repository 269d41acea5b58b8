/**
 A managed run's pinned budget, its durable counters, and the rows that the counters bound:
 tool invocations, checkpoints, artifacts and delegations.
 */
module RuntimeState {
  import opened Base

  /** Limits and counters are non-negative; proposed limits and usage are integers until validated. */
  type Counters = map<string, nat>

  /** One usage entry of a charge, in the order the charge lists them. */
  datatype Usage = Usage(name: string, amount: int)

  function Get(m: Counters, name: string): nat {
    if name in m then m[name] else 0
  }

  /** The total that a charge asks for under one name. */
  function Total(charge: seq<Usage>, name: string): int {
    if charge == [] then 0
    else
      var last := charge[|charge| - 1];
      Total(charge[..|charge| - 1], name) + if last.name == name then last.amount else 0
  }

  predicate WellFormed(charge: seq<Usage>) {
    forall u :: u in charge ==> u.name != "" && u.amount >= 0
  }

  /** Every component of the charge fits under its limit. */
  predicate Fits(limits: Counters, consumed: Counters, charge: seq<Usage>) {
    forall u :: u in charge ==> Get(consumed, u.name) + Total(charge, u.name) <= Get(limits, u.name)
  }

  predicate Affordable(limits: Option<Counters>, consumed: Counters, charge: seq<Usage>) {
    limits.Some? && Fits(limits.value, consumed, charge)
  }

  /** The counters after the charge: each name moves by its total. */
  ghost predicate Charged(before: Counters, after: Counters, charge: seq<Usage>) {
    forall name {:trigger Total(charge, name)} :: Get(after, name) == Get(before, name) + Total(charge, name)
  }

  lemma {:induction false} TotalOfPrefix(charge: seq<Usage>, i: nat, name: string)
    requires WellFormed(charge) && i <= |charge|
    ensures 0 <= Total(charge[..i], name) <= Total(charge, name)
    decreases |charge|
  {
    if i == |charge| {
      assert charge[..i] == charge;
      if charge != [] {
        assert charge[|charge| - 1] in charge;
        TotalOfPrefix(charge[..|charge| - 1], i - 1, name);
        assert charge[..|charge| - 1][..i - 1] == charge[..i - 1];
      }
    } else {
      assert charge[|charge| - 1] in charge;
      TotalOfPrefix(charge[..|charge| - 1], i, name);
      assert charge[..|charge| - 1][..i] == charge[..i];
    }
  }

  /** No counter is past its limit. */
  ghost predicate WithinLimits(limits: Counters, consumed: Counters) {
    forall name :: Get(consumed, name) <= Get(limits, name)
  }

  lemma TotalOfTwo(a: Usage, b: Usage)
    ensures forall name :: Total([a, b], name) ==
              (if a.name == name then a.amount else 0) + (if b.name == name then b.amount else 0)
    ensures a.name != "" && a.amount >= 0 && b.name != "" && b.amount >= 0 ==> WellFormed([a, b])
  {
    assert [a, b][..1] == [a] && [a][..0] == [];
    forall name
      ensures Total([a, b], name) == (if a.name == name then a.amount else 0) + (if b.name == name then b.amount else 0)
    {
      assert Total([a, b], name) == Total([a], name) + if b.name == name then b.amount else 0;
      assert Total([a], name) == Total([], name) + if a.name == name then a.amount else 0;
    }
  }

  datatype InvocationRow = InvocationRow(key: string, succeeded: bool)
  datatype CheckpointRow = CheckpointRow(name: string, digest: string, size: nat)
  datatype ArtifactRow = ArtifactRow(name: string, digest: string, size: nat)

  function Succeeded(rows: seq<InvocationRow>): nat {
    if rows == [] then 0
    else Succeeded(rows[..|rows| - 1]) + if rows[|rows| - 1].succeeded then 1 else 0
  }

  function CheckpointBytes(rows: seq<CheckpointRow>): nat {
    if rows == [] then 0 else CheckpointBytes(rows[..|rows| - 1]) + rows[|rows| - 1].size
  }

  function ArtifactBytes(rows: seq<ArtifactRow>): nat {
    if rows == [] then 0 else ArtifactBytes(rows[..|rows| - 1]) + rows[|rows| - 1].size
  }

  /** The row that a name or a name and content have, if any. */
  function FindCheckpoint(rows: seq<CheckpointRow>, name: string): (i: int)
    ensures -1 <= i < |rows|
    ensures i >= 0 ==> rows[i].name == name
    ensures i < 0 ==> forall j :: 0 <= j < |rows| ==> rows[j].name != name
  {
    if rows == [] then -1
    else if rows[0].name == name then 0
    else var i := FindCheckpoint(rows[1..], name); if i < 0 then -1 else i + 1
  }

  function FindArtifact(rows: seq<ArtifactRow>, name: string, digest: string): (i: int)
    ensures -1 <= i < |rows|
    ensures i >= 0 ==> rows[i].name == name && rows[i].digest == digest
    ensures i < 0 ==> forall j :: 0 <= j < |rows| ==> rows[j].name != name || rows[j].digest != digest
  {
    if rows == [] then -1
    else if rows[0].name == name && rows[0].digest == digest then 0
    else var i := FindArtifact(rows[1..], name, digest); if i < 0 then -1 else i + 1
  }

  predicate NameConflicts(rows: seq<CheckpointRow>, name: string, digest: string) {
    var i := FindCheckpoint(rows, name);
    i >= 0 && rows[i].digest != digest
  }

  /** The size that is charged: the stored row's, if the name or content has one. */
  function CheckpointSize(rows: seq<CheckpointRow>, name: string, size: nat): nat {
    var i := FindCheckpoint(rows, name);
    if i >= 0 then rows[i].size else size
  }

  function ArtifactSize(rows: seq<ArtifactRow>, name: string, digest: string, size: nat): nat {
    var i := FindArtifact(rows, name, digest);
    if i >= 0 then rows[i].size else size
  }

  function WithCheckpoint(rows: seq<CheckpointRow>, row: CheckpointRow): seq<CheckpointRow> {
    if FindCheckpoint(rows, row.name) >= 0 then rows else rows + [row]
  }

  function WithArtifact(rows: seq<ArtifactRow>, row: ArtifactRow): seq<ArtifactRow> {
    if FindArtifact(rows, row.name, row.digest) >= 0 then rows else rows + [row]
  }

  /** A name is stored once. */
  predicate DistinctNames(rows: seq<CheckpointRow>) {
    forall i, j :: 0 <= i < j < |rows| ==> rows[i].name != rows[j].name
  }

  /** A name and content are stored once. */
  predicate DistinctArtifacts(rows: seq<ArtifactRow>) {
    forall i, j :: 0 <= i < j < |rows| ==> rows[i].name != rows[j].name || rows[i].digest != rows[j].digest
  }

  /** A stored artifact is charged at its stored size and not stored again; a new one is, at its own size. */
  lemma ArtifactIsStoredOnce(rows: seq<ArtifactRow>, row: ArtifactRow)
    requires DistinctArtifacts(rows)
    ensures forall j :: 0 <= j < |rows| && rows[j].name == row.name && rows[j].digest == row.digest ==>
              && ArtifactSize(rows, row.name, row.digest, row.size) == rows[j].size
              && WithArtifact(rows, row) == rows
    ensures (forall j :: 0 <= j < |rows| ==> rows[j].name != row.name || rows[j].digest != row.digest) ==>
              && ArtifactSize(rows, row.name, row.digest, row.size) == row.size
              && WithArtifact(rows, row) == rows + [row] && DistinctArtifacts(rows + [row])
  {
    var i := FindArtifact(rows, row.name, row.digest);
    if i >= 0 {
      forall j | 0 <= j < |rows| && rows[j].name == row.name && rows[j].digest == row.digest ensures i == j {
        assert !(i < j) && !(j < i);
      }
    }
  }

  /** A save conflicts exactly when its name is stored with another content. */
  lemma NameConflictsIff(rows: seq<CheckpointRow>, name: string, digest: string)
    requires DistinctNames(rows)
    ensures NameConflicts(rows, name, digest) <==>
            exists row :: row in rows && row.name == name && row.digest != digest
    ensures forall j :: 0 <= j < |rows| && rows[j].name == name ==> CheckpointSize(rows, name, 0) == rows[j].size
    ensures (exists j :: 0 <= j < |rows| && rows[j].name == name) ==>
              forall row: CheckpointRow :: row.name == name ==> WithCheckpoint(rows, row) == rows
    ensures (forall j :: 0 <= j < |rows| ==> rows[j].name != name) ==>
              forall row: CheckpointRow :: row.name == name ==> WithCheckpoint(rows, row) == rows + [row]
  {
    var i := FindCheckpoint(rows, name);
    if i >= 0 {
      forall j | 0 <= j < |rows| && rows[j].name == name ensures i == j {
        assert !(i < j) && !(j < i);
      }
    }
  }

  lemma NewNameStaysDistinct(rows: seq<CheckpointRow>, row: CheckpointRow)
    requires DistinctNames(rows) && FindCheckpoint(rows, row.name) < 0
    ensures DistinctNames(rows + [row])
  {
  }

  lemma CheckpointBytesOfAppend(rows: seq<CheckpointRow>, row: CheckpointRow)
    ensures CheckpointBytes(rows + [row]) == CheckpointBytes(rows) + row.size
  {
    assert (rows + [row])[..|rows|] == rows;
  }

  lemma ArtifactBytesOfAppend(rows: seq<ArtifactRow>, row: ArtifactRow)
    ensures ArtifactBytes(rows + [row]) == ArtifactBytes(rows) + row.size
  {
    assert (rows + [row])[..|rows|] == rows;
  }

  datatype StateError =
    | InvalidUsage | NotInitialized | BudgetExhausted | LimitsConflict
    | ToolRefused | NameConflict | ModelFailed

  /** What the gateway does with a key that the run has not used before. */
  datatype FirstCall = Succeeds | RefusedAndAudited | Raises

  /** The counters cover the successful tool calls, the stored bytes and the delegations. */
  predicate Accounted(consumed: Counters, calls: nat, checkpoints: nat, artifacts: nat, children: nat) {
    && calls <= Get(consumed, "tool_calls")
    && checkpoints <= Get(consumed, "checkpoint_bytes")
    && artifacts <= Get(consumed, "artifact_bytes")
    && children == Get(consumed, "child_agents")
    && Get(consumed, "steps") >=
       Get(consumed, "tool_calls") + Get(consumed, "model_calls") + Get(consumed, "child_agents")
  }

  lemma AccountedFewer(
    consumed: Counters, calls: nat, checkpoints: nat, artifacts: nat, children: nat, calls': nat)
    requires Accounted(consumed, calls, checkpoints, artifacts, children) && calls' <= calls
    ensures Accounted(consumed, calls', checkpoints, artifacts, children)
  {
  }

  /** A charge pays for the effects that come with it. */
  lemma ChargePays(
    before: Counters, after: Counters, charge: seq<Usage>, calls: nat, checkpoints: nat, artifacts: nat, children: nat,
    calls': nat, checkpoints': nat, artifacts': nat)
    requires Accounted(before, calls, checkpoints, artifacts, children) && Charged(before, after, charge)
    requires calls' <= calls + Total(charge, "tool_calls")
    requires checkpoints' <= checkpoints + Total(charge, "checkpoint_bytes")
    requires artifacts' <= artifacts + Total(charge, "artifact_bytes")
    requires Total(charge, "steps") >=
             Total(charge, "tool_calls") + Total(charge, "model_calls") + Total(charge, "child_agents")
    ensures children + Total(charge, "child_agents") >= 0
    ensures Accounted(after, calls', checkpoints', artifacts', children + Total(charge, "child_agents"))
  {
    assert Get(after, "tool_calls") == Get(before, "tool_calls") + Total(charge, "tool_calls");
    assert Get(after, "checkpoint_bytes") == Get(before, "checkpoint_bytes") + Total(charge, "checkpoint_bytes");
    assert Get(after, "artifact_bytes") == Get(before, "artifact_bytes") + Total(charge, "artifact_bytes");
    assert Get(after, "child_agents") == Get(before, "child_agents") + Total(charge, "child_agents");
    assert Get(after, "model_calls") == Get(before, "model_calls") + Total(charge, "model_calls");
    assert Get(after, "steps") == Get(before, "steps") + Total(charge, "steps");
  }

  lemma ToolCallPays(
    before: Counters, after: Counters, calls: nat, checkpoints: nat, artifacts: nat, children: nat, calls': nat)
    requires Accounted(before, calls, checkpoints, artifacts, children) && Charged(before, after, TOOL_CALL)
    requires calls' <= calls + 1
    ensures Accounted(after, calls', checkpoints, artifacts, children)
  {
    TotalOfTwo(TOOL_CALL[0], TOOL_CALL[1]);
    ChargePays(before, after, TOOL_CALL, calls, checkpoints, artifacts, children, calls', checkpoints, artifacts);
  }

  lemma ModelCallPays(before: Counters, after: Counters, calls: nat, checkpoints: nat, artifacts: nat, children: nat)
    requires Accounted(before, calls, checkpoints, artifacts, children) && Charged(before, after, MODEL_CALL)
    ensures Accounted(after, calls, checkpoints, artifacts, children)
  {
    TotalOfTwo(MODEL_CALL[0], MODEL_CALL[1]);
    ChargePays(before, after, MODEL_CALL, calls, checkpoints, artifacts, children, calls, checkpoints, artifacts);
  }

  lemma TokensPay(
    before: Counters, after: Counters, inputTokens: nat, outputTokens: nat,
    calls: nat, checkpoints: nat, artifacts: nat, children: nat)
    requires Accounted(before, calls, checkpoints, artifacts, children)
    requires Charged(before, after, TokenUsage(inputTokens, outputTokens))
    ensures Accounted(after, calls, checkpoints, artifacts, children)
  {
    var tokens := TokenUsage(inputTokens, outputTokens);
    TotalOfTwo(tokens[0], tokens[1]);
    ChargePays(before, after, tokens, calls, checkpoints, artifacts, children, calls, checkpoints, artifacts);
  }

  lemma CheckpointPays(
    before: Counters, after: Counters, size: nat,
    calls: nat, checkpoints: nat, artifacts: nat, children: nat, checkpoints': nat)
    requires Accounted(before, calls, checkpoints, artifacts, children)
    requires Charged(before, after, CheckpointUsage(size)) && checkpoints' <= checkpoints + size
    ensures Accounted(after, calls, checkpoints', artifacts, children)
  {
    var usage := CheckpointUsage(size);
    TotalOfTwo(usage[0], usage[1]);
    ChargePays(before, after, usage, calls, checkpoints, artifacts, children, calls, checkpoints', artifacts);
  }

  lemma ArtifactPays(
    before: Counters, after: Counters, size: nat,
    calls: nat, checkpoints: nat, artifacts: nat, children: nat, artifacts': nat)
    requires Accounted(before, calls, checkpoints, artifacts, children)
    requires Charged(before, after, ArtifactUsage(size)) && artifacts' <= artifacts + size
    ensures Accounted(after, calls, checkpoints, artifacts', children)
  {
    var usage := ArtifactUsage(size);
    TotalOfTwo(usage[0], usage[1]);
    ChargePays(before, after, usage, calls, checkpoints, artifacts, children, calls, checkpoints, artifacts');
  }

  lemma ChildPays(before: Counters, after: Counters, calls: nat, checkpoints: nat, artifacts: nat, children: nat)
    requires Accounted(before, calls, checkpoints, artifacts, children) && Charged(before, after, CHILD)
    ensures Accounted(after, calls, checkpoints, artifacts, children + 1)
  {
    TotalOfTwo(CHILD[0], CHILD[1]);
    ChargePays(before, after, CHILD, calls, checkpoints, artifacts, children, calls, checkpoints, artifacts);
  }

  class ManagedRunState {
    var limits: Option<Counters>
    var consumed: Counters
    var invocations: seq<InvocationRow>
    var checkpoints: seq<CheckpointRow>
    var artifacts: seq<ArtifactRow>
    var delegations: seq<string>

    /** The counters stay within the pinned limits and bound every durable effect of the run. */
    ghost predicate Valid()
      reads this
    {
      ValidWith(consumed)
    }

    /** As Valid, with other counters. */
    ghost predicate ValidWith(counters: Counters)
      reads this
    {
      && (limits.None? ==> counters == map[])
      && (limits.Some? ==> WithinLimits(limits.value, counters))
      && Accounted(counters, Succeeded(invocations), CheckpointBytes(checkpoints), ArtifactBytes(artifacts),
                   |delegations|)
      && NoDuplicates(delegations) && DistinctNames(checkpoints)
      && DistinctArtifacts(artifacts)
    }

    constructor ()
      ensures Valid() && limits.None? && consumed == map[]
      ensures invocations == [] && checkpoints == [] && artifacts == [] && delegations == []
    {
      limits, consumed, invocations, checkpoints, artifacts, delegations := None, map[], [], [], [], [];
    }

    /** Pin the limits once; pinning different ones afterwards is a conflict. */
    method InitializeBudget(wanted: map<string, int>) returns (error: Option<StateError>)
      requires Valid()
      modifies `limits
      ensures Valid()
      ensures error == Some(InvalidUsage) <==> exists name :: name in wanted && (name == "" || wanted[name] < 0)
      ensures error in {None, Some(InvalidUsage), Some(LimitsConflict)}
      ensures error.None? ==> limits == Some(wanted) && old(limits) in {None, limits}
      ensures error.Some? ==> limits == old(limits)
      ensures error == Some(LimitsConflict) ==> limits.Some? && limits.value != wanted
    {
      if exists name :: name in wanted && (name == "" || wanted[name] < 0) {
        return Some(InvalidUsage);
      }
      if limits.Some? {
        if limits.value != wanted {
          return Some(LimitsConflict);
        }
        return None;
      }
      limits := Some(wanted);
      return None;
    }

    /**
     What is left under the manifest's limits, never negative. A delegated child whose limits were
     carved to something else than its manifest gets a conflict instead, and no other run does.
     */
    method RemainingBudget(manifest: map<string, int>) returns (remaining: Option<Counters>)
      requires Valid() && forall name :: name in manifest ==> name != "" && manifest[name] >= 0
      modifies `limits
      ensures Valid()
      ensures remaining.None? <==> old(limits).Some? && old(limits).value != manifest
      ensures remaining.None? ==> limits == old(limits)
      ensures remaining.Some? ==>
                && limits == Some(manifest) && remaining.value.Keys == manifest.Keys
                && forall name :: name in manifest ==> remaining.value[name] == manifest[name] - Get(consumed, name)
    {
      var error := InitializeBudget(manifest);
      if error.Some? {
        return None;
      }
      assert forall name :: name in limits.value ==> Get(consumed, name) <= Get(limits.value, name);
      return Some(map name | name in limits.value :: limits.value[name] - Get(consumed, name));
    }

    /** consume_budget: all components or none, decided by whether every one of them fits. */
    method ConsumeBudget(charge: seq<Usage>) returns (error: Option<StateError>)
      requires limits.Some? ==> WithinLimits(limits.value, consumed)
      modifies `consumed
      ensures error == if !WellFormed(charge) then Some(InvalidUsage)
                       else if limits.None? then Some(NotInitialized)
                       else if !Fits(limits.value, old(consumed), charge) then Some(BudgetExhausted)
                       else None
      ensures error == Some(InvalidUsage) <==> exists u :: u in charge && (u.name == "" || u.amount < 0)
      ensures error == None <==>
                && limits.Some? && (forall u :: u in charge ==> u.name != "" && u.amount >= 0)
                && forall u :: u in charge ==>
                     Get(old(consumed), u.name) + Total(charge, u.name) <= Get(limits.value, u.name)
      ensures error.Some? ==> consumed == old(consumed)
      ensures error.None? ==> Charged(old(consumed), consumed, charge) && WithinLimits(limits.value, consumed)
    {
      if !WellFormed(charge) {
        return Some(InvalidUsage);
      }
      if limits.None? {
        return Some(NotInitialized);
      }
      var updated: Counters := consumed;
      for i := 0 to |charge|
        invariant consumed == old(consumed)
        invariant Charged(consumed, updated, charge[..i])
        invariant WithinLimits(limits.value, updated)
      {
        var u := charge[i];
        assert u in charge;
        assert charge[..i + 1][..i] == charge[..i];
        var next := Get(updated, u.name) + u.amount;
        assert next == Get(consumed, u.name) + Total(charge[..i + 1], u.name);
        if next > Get(limits.value, u.name) {
          TotalOfPrefix(charge, i + 1, u.name);
          return Some(BudgetExhausted);
        }
        updated := updated[u.name := next];
      }
      assert charge[..|charge|] == charge;
      consumed := updated;
      return None;
    }

    function FindInvocation(key: string): (i: int)
      reads this
      ensures -1 <= i < |invocations|
      ensures i >= 0 ==> invocations[i].key == key
      ensures i < 0 ==> forall row :: row in invocations ==> row.key != key
    {
      Find(invocations, key)
    }

    /** The gateway's part of a tool call. */
    method InvokeGateway(key: string, first: FirstCall) returns (ok: bool)
      modifies `invocations
      ensures (invocations, ok) == Invoked(old(invocations), key, first)
    {
      var i := FindInvocation(key);
      if i >= 0 {
        return invocations[i].succeeded;
      }
      match first {
        case Succeeds =>
          invocations := invocations + [InvocationRow(key, true)];
          ok := true;
        case RefusedAndAudited =>
          invocations := invocations + [InvocationRow(key, false)];
          ok := false;
        case Raises =>
          ok := false;
      }
    }

    /** A governed tool call in one transaction; when it raises, only the audit record remains. */
    method CallTool(key: string, first: FirstCall) returns (error: Option<StateError>)
      requires Valid()
      modifies `consumed, `invocations
      ensures Valid()
      ensures error.None? <==>
                Affordable(limits, old(consumed), TOOL_CALL) && Invoked(old(invocations), key, first).1
      ensures error.None? ==> Charged(old(consumed), consumed, TOOL_CALL)
      ensures error.Some? ==> consumed == old(consumed)
      ensures invocations == if Affordable(limits, old(consumed), TOOL_CALL)
                             then Invoked(old(invocations), key, first).0 else old(invocations)
    {
      var saved := consumed;
      error := ConsumeBudget(TOOL_CALL);
      if error.Some? {
        return;
      }
      ghost var n, c, a, d :=
        Succeeded(invocations), CheckpointBytes(checkpoints), ArtifactBytes(artifacts), |delegations|;
      ToolCallPays(saved, consumed, n, c, a, d, n + 1);
      error := FinishToolCall(key, first, saved);
    }

    /** One more success is paid for; a call without an answer gives the charge back by rolling back. */
    method FinishToolCall(key: string, first: FirstCall, saved: Counters) returns (error: Option<StateError>)
      requires ValidWith(saved) && limits.Some? && WithinLimits(limits.value, consumed)
      requires Accounted(consumed, Succeeded(invocations) + 1, CheckpointBytes(checkpoints), ArtifactBytes(artifacts),
                         |delegations|)
      modifies `consumed, `invocations
      ensures Valid()
      ensures (invocations, error.None?) == Invoked(old(invocations), key, first)
      ensures consumed == if error.None? then old(consumed) else saved
    {
      InvokedSucceeds(invocations, key, first);
      var ok := InvokeGateway(key, first);
      if !ok {
        consumed := saved;
        return Some(ToolRefused);
      }
      AccountedFewer(consumed, Succeeded(old(invocations)) + 1, CheckpointBytes(checkpoints), ArtifactBytes(artifacts),
                     |delegations|, Succeeded(invocations));
      return None;
    }

    /** A model call commits its call charge even when the provider fails, and nothing when its tokens do not fit. */
    method CallModel(providerFails: bool, inputTokens: nat, outputTokens: nat) returns (error: Option<StateError>)
      requires Valid()
      modifies `consumed
      ensures Valid()
      ensures error == Some(ModelFailed) <==> providerFails && Affordable(limits, old(consumed), MODEL_CALL)
      ensures error == Some(ModelFailed) ==> Charged(old(consumed), consumed, MODEL_CALL)
      ensures error.None? <==>
                !providerFails
                && Affordable(limits, old(consumed), MODEL_CALL + TokenUsage(inputTokens, outputTokens))
      ensures error.None? ==>
                && !providerFails
                && Charged(old(consumed), consumed, MODEL_CALL + TokenUsage(inputTokens, outputTokens))
      ensures error.Some? && error != Some(ModelFailed) ==> consumed == old(consumed)
    {
      var saved := consumed;
      error := ConsumeBudget(MODEL_CALL);
      if error.Some? {
        TokensNeedTheCall(limits, consumed, inputTokens, outputTokens);
        return;
      }
      ModelCallPays(saved, consumed, Succeeded(invocations), CheckpointBytes(checkpoints), ArtifactBytes(artifacts),
                    |delegations|);
      if providerFails {
        return Some(ModelFailed);
      }
      AffordableInTurn(limits.value, saved, consumed, inputTokens, outputTokens);
      ghost var called := consumed;
      error := ChargeTokens(inputTokens, outputTokens, saved);
      if error.None? {
        ChargedInTurn(saved, called, consumed, inputTokens, outputTokens);
      }
    }

    /** The provider has answered; tokens that do not fit roll the call back. */
    method ChargeTokens(inputTokens: nat, outputTokens: nat, saved: Counters) returns (error: Option<StateError>)
      requires ValidWith(saved) && Valid() && limits.Some?
      modifies `consumed
      ensures Valid()
      ensures error == if Fits(limits.value, old(consumed), TokenUsage(inputTokens, outputTokens)) then None
                       else Some(BudgetExhausted)
      ensures error.None? ==> Charged(old(consumed), consumed, TokenUsage(inputTokens, outputTokens))
      ensures error.Some? ==> consumed == saved
    {
      assert WellFormed(TokenUsage(inputTokens, outputTokens));
      error := ConsumeBudget(TokenUsage(inputTokens, outputTokens));
      if error.Some? {
        consumed := saved;
        return;
      }
      TokensPay(old(consumed), consumed, inputTokens, outputTokens, Succeeded(invocations),
                CheckpointBytes(checkpoints), ArtifactBytes(artifacts), |delegations|);
    }

    /** A checkpoint name keeps its first content; saving that again charges its stored size again. */
    method SaveCheckpoint(name: string, digest: string, size: nat) returns (error: Option<StateError>)
      requires Valid()
      modifies `consumed, `checkpoints
      ensures Valid()
      ensures error == Some(NameConflict) <==>
                exists row :: row in old(checkpoints) && row.name == name && row.digest != digest
      ensures error.None? <==>
                && !NameConflicts(old(checkpoints), name, digest)
                && Affordable(limits, old(consumed), CheckpointUsage(CheckpointSize(old(checkpoints), name, size)))
      ensures error.None? ==>
                Charged(old(consumed), consumed, CheckpointUsage(CheckpointSize(old(checkpoints), name, size)))
      ensures checkpoints == if error.None? then WithCheckpoint(old(checkpoints), CheckpointRow(name, digest, size))
                             else old(checkpoints)
      ensures error.Some? ==> consumed == old(consumed)
    {
      var i := FindCheckpoint(checkpoints, name);
      NameConflictsIff(checkpoints, name, digest);
      if i < 0 {
        error := InsertCheckpoint(CheckpointRow(name, digest, size));
        return;
      }
      if checkpoints[i].digest != digest {
        return Some(NameConflict);
      }
      error := ChargeCheckpoint(checkpoints[i].size);
    }

    /** The charge for a row that is stored already. */
    method ChargeCheckpoint(size: nat) returns (error: Option<StateError>)
      requires Valid()
      modifies `consumed
      ensures Valid() && error != Some(NameConflict)
      ensures error.None? <==> Affordable(limits, old(consumed), CheckpointUsage(size))
      ensures error.None? ==> Charged(old(consumed), consumed, CheckpointUsage(size))
      ensures error.Some? ==> consumed == old(consumed)
    {
      assert WellFormed(CheckpointUsage(size));
      error := ConsumeBudget(CheckpointUsage(size));
      if error.None? {
        ghost var c := CheckpointBytes(checkpoints);
        CheckpointPays(old(consumed), consumed, size, Succeeded(invocations), c, ArtifactBytes(artifacts),
                       |delegations|, c);
      }
    }

    method InsertCheckpoint(row: CheckpointRow) returns (error: Option<StateError>)
      requires Valid() && FindCheckpoint(checkpoints, row.name) < 0
      modifies `consumed, `checkpoints
      ensures Valid() && error != Some(NameConflict)
      ensures error.None? <==> Affordable(limits, old(consumed), CheckpointUsage(row.size))
      ensures error.None? ==> Charged(old(consumed), consumed, CheckpointUsage(row.size))
      ensures error.Some? ==> consumed == old(consumed)
      ensures checkpoints == if error.None? then old(checkpoints) + [row] else old(checkpoints)
    {
      assert WellFormed(CheckpointUsage(row.size));
      error := ConsumeBudget(CheckpointUsage(row.size));
      if error.None? {
        CheckpointBytesOfAppend(checkpoints, row);
        NewNameStaysDistinct(checkpoints, row);
        ghost var c := CheckpointBytes(checkpoints);
        CheckpointPays(old(consumed), consumed, row.size, Succeeded(invocations), c, ArtifactBytes(artifacts),
                       |delegations|, c + row.size);
        checkpoints := checkpoints + [row];
      }
    }

    /** An artifact is stored once per name and content; creating it again charges its stored size again. */
    method CreateArtifact(name: string, digest: string, size: nat) returns (error: Option<StateError>)
      requires Valid()
      modifies `consumed, `artifacts
      ensures Valid()
      ensures error.None? <==>
                Affordable(limits, old(consumed), ArtifactUsage(ArtifactSize(old(artifacts), name, digest, size)))
      ensures error.None? ==>
                Charged(old(consumed), consumed, ArtifactUsage(ArtifactSize(old(artifacts), name, digest, size)))
      ensures artifacts == if error.None? then WithArtifact(old(artifacts), ArtifactRow(name, digest, size))
                           else old(artifacts)
      ensures error.Some? ==> consumed == old(consumed)
    {
      var i := FindArtifact(artifacts, name, digest);
      if i < 0 {
        error := InsertArtifact(ArtifactRow(name, digest, size));
      } else {
        error := ChargeArtifact(artifacts[i].size);
      }
    }

    method ChargeArtifact(size: nat) returns (error: Option<StateError>)
      requires Valid()
      modifies `consumed
      ensures Valid()
      ensures error.None? <==> Affordable(limits, old(consumed), ArtifactUsage(size))
      ensures error.None? ==> Charged(old(consumed), consumed, ArtifactUsage(size))
      ensures error.Some? ==> consumed == old(consumed)
    {
      assert WellFormed(ArtifactUsage(size));
      error := ConsumeBudget(ArtifactUsage(size));
      if error.None? {
        ghost var a := ArtifactBytes(artifacts);
        ArtifactPays(old(consumed), consumed, size, Succeeded(invocations), CheckpointBytes(checkpoints), a,
                     |delegations|, a);
      }
    }

    method InsertArtifact(row: ArtifactRow) returns (error: Option<StateError>)
      requires Valid() && FindArtifact(artifacts, row.name, row.digest) < 0
      modifies `consumed, `artifacts
      ensures Valid()
      ensures error.None? <==> Affordable(limits, old(consumed), ArtifactUsage(row.size))
      ensures error.None? ==> Charged(old(consumed), consumed, ArtifactUsage(row.size))
      ensures error.Some? ==> consumed == old(consumed)
      ensures artifacts == if error.None? then old(artifacts) + [row] else old(artifacts)
    {
      assert WellFormed(ArtifactUsage(row.size));
      error := ConsumeBudget(ArtifactUsage(row.size));
      if error.None? {
        ArtifactBytesOfAppend(artifacts, row);
        ArtifactIsStoredOnce(artifacts, row);
        ghost var a := ArtifactBytes(artifacts);
        ArtifactPays(old(consumed), consumed, row.size, Succeeded(invocations), CheckpointBytes(checkpoints), a,
                     |delegations|, a + row.size);
        artifacts := artifacts + [row];
      }
    }

    /** The creation half of a delegation, which only a new idempotency key pays for. */
    method CreateChild(key: string) returns (error: Option<StateError>)
      requires Valid()
      modifies `consumed, `delegations
      ensures Valid()
      ensures key in old(delegations) ==> error.None? && consumed == old(consumed) && delegations == old(delegations)
      ensures key !in old(delegations) && error.None? ==>
                delegations == old(delegations) + [key] && Charged(old(consumed), consumed, CHILD)
      ensures error.None? <==> key in old(delegations) || Affordable(limits, old(consumed), CHILD)
      ensures error.Some? ==> consumed == old(consumed) && delegations == old(delegations)
    {
      if key in delegations {
        return None;
      }
      error := ConsumeBudget(CHILD);
      if error.None? {
        ghost var n, c, a := Succeeded(invocations), CheckpointBytes(checkpoints), ArtifactBytes(artifacts);
        ChildPays(old(consumed), consumed, n, c, a, |delegations|);
        delegations := delegations + [key];
      }
    }
  }

  const TOOL_CALL := [Usage("steps", 1), Usage("tool_calls", 1)]
  const MODEL_CALL := [Usage("model_calls", 1), Usage("steps", 1)]
  const CHILD := [Usage("child_agents", 1), Usage("steps", 1)]

  function TokenUsage(input: nat, output: nat): seq<Usage> {
    [Usage("input_tokens", input), Usage("output_tokens", output)]
  }

  function CheckpointUsage(size: nat): seq<Usage> {
    [Usage("checkpoint_bytes", size), Usage("steps", 1)]
  }

  function ArtifactUsage(size: nat): seq<Usage> {
    [Usage("artifact_bytes", size), Usage("steps", 1)]
  }

  function Find(rows: seq<InvocationRow>, key: string): (i: int)
    ensures -1 <= i < |rows|
    ensures i >= 0 ==> rows[i].key == key
    ensures i < 0 ==> forall row :: row in rows ==> row.key != key
  {
    if rows == [] then -1
    else if rows[0].key == key then 0
    else var i := Find(rows[1..], key); if i < 0 then -1 else i + 1
  }

  /** Which counter each charge moves, and by how much. */
  lemma ChargesByName(size: nat, input: nat, output: nat)
    ensures forall name :: Total(TOOL_CALL, name) == if name in {"tool_calls", "steps"} then 1 else 0
    ensures forall name :: Total(MODEL_CALL, name) == if name in {"model_calls", "steps"} then 1 else 0
    ensures forall name :: Total(CHILD, name) == if name in {"child_agents", "steps"} then 1 else 0
    ensures forall name :: Total(TokenUsage(input, output), name) ==
              if name == "input_tokens" then input else if name == "output_tokens" then output else 0
    ensures forall name :: Total(CheckpointUsage(size), name) ==
              if name == "checkpoint_bytes" then size else if name == "steps" then 1 else 0
    ensures forall name :: Total(ArtifactUsage(size), name) ==
              if name == "artifact_bytes" then size else if name == "steps" then 1 else 0
  {
    TotalOfTwo(TOOL_CALL[0], TOOL_CALL[1]);
    TotalOfTwo(MODEL_CALL[0], MODEL_CALL[1]);
    TotalOfTwo(CHILD[0], CHILD[1]);
    TotalOfTwo(TokenUsage(input, output)[0], TokenUsage(input, output)[1]);
    TotalOfTwo(CheckpointUsage(size)[0], CheckpointUsage(size)[1]);
    TotalOfTwo(ArtifactUsage(size)[0], ArtifactUsage(size)[1]);
  }

  /** The invocation rows after a call under a key, and whether the call had an answer. */
  function Invoked(rows: seq<InvocationRow>, key: string, first: FirstCall): (seq<InvocationRow>, bool) {
    var i := Find(rows, key);
    if i >= 0 then (rows, rows[i].succeeded)
    else
      match first
      case Succeeds => (rows + [InvocationRow(key, true)], true)
      case RefusedAndAudited => (rows + [InvocationRow(key, false)], false)
      case Raises => (rows, false)
  }

  /** One call adds at most one success, and none unless it has an answer. */
  lemma InvokedSucceeds(rows: seq<InvocationRow>, key: string, first: FirstCall)
    ensures var (after, ok) := Invoked(rows, key, first);
            && Succeeded(rows) <= Succeeded(after) <= Succeeded(rows) + 1
            && (!ok ==> Succeeded(after) == Succeeded(rows))
  {
    var after := Invoked(rows, key, first).0;
    if after != rows {
      assert after[..|rows|] == rows;
    }
  }

  lemma TokenTotals(inputTokens: nat, outputTokens: nat)
    ensures var all := MODEL_CALL + TokenUsage(inputTokens, outputTokens);
            forall name :: Total(all, name) ==
                             Total(MODEL_CALL, name) + Total(TokenUsage(inputTokens, outputTokens), name)
  {
    forall name {
      TotalOfConcat(MODEL_CALL, TokenUsage(inputTokens, outputTokens), name);
    }
  }

  /** A model call's tokens fit after its call charge exactly when the whole charge fits at once. */
  lemma AffordableInTurn(limits: Counters, before: Counters, after: Counters, inputTokens: nat, outputTokens: nat)
    requires Fits(limits, before, MODEL_CALL) && Charged(before, after, MODEL_CALL)
    ensures var tokens := TokenUsage(inputTokens, outputTokens);
            Fits(limits, after, tokens) <==> Fits(limits, before, MODEL_CALL + tokens)
  {
    var tokens := TokenUsage(inputTokens, outputTokens);
    TokenTotals(inputTokens, outputTokens);
    TotalOfTwo(MODEL_CALL[0], MODEL_CALL[1]);
    TotalOfTwo(tokens[0], tokens[1]);
    assert tokens[0] in MODEL_CALL + tokens && tokens[1] in MODEL_CALL + tokens;
  }

  lemma ChargedInTurn(before: Counters, called: Counters, after: Counters, inputTokens: nat, outputTokens: nat)
    requires Charged(before, called, MODEL_CALL) && Charged(called, after, TokenUsage(inputTokens, outputTokens))
    ensures Charged(before, after, MODEL_CALL + TokenUsage(inputTokens, outputTokens))
  {
    TokenTotals(inputTokens, outputTokens);
  }

  lemma TokensNeedTheCall(limits: Option<Counters>, consumed: Counters, inputTokens: nat, outputTokens: nat)
    requires !Affordable(limits, consumed, MODEL_CALL)
    ensures !Affordable(limits, consumed, MODEL_CALL + TokenUsage(inputTokens, outputTokens))
  {
    var tokens := TokenUsage(inputTokens, outputTokens);
    TokenTotals(inputTokens, outputTokens);
    TotalOfTwo(tokens[0], tokens[1]);
    if limits.Some? {
      var u :| u in MODEL_CALL && Get(consumed, u.name) + Total(MODEL_CALL, u.name) > Get(limits.value, u.name);
      assert u in MODEL_CALL + tokens;
    }
  }

  lemma {:induction false} TotalOfConcat(a: seq<Usage>, b: seq<Usage>, name: string)
    ensures Total(a + b, name) == Total(a, name) + Total(b, name)
    decreases |b|
  {
    if b == [] {
      assert a + b == a;
    } else {
      assert (a + b)[..|a + b| - 1] == a + b[..|b| - 1];
      TotalOfConcat(a, b[..|b| - 1], name);
    }
  }
}
