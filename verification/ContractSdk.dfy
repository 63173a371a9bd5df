/**
  The contract SDK: callers and callees among the blobs of a transaction, and the execution
  context from which a contract consumes its callees.

  Blob data is split where the program's deserializer splits it: a header (caller and callees),
  if the bytes start with one, and the payload after it. Turning a payload into an action is a
  parameter.
 */
module ContractSdk {
  import opened Model

  type Bytes = seq<nat>
  type Decoder<!A> = Bytes -> Option<A>

  datatype Result<+T> = Ok(value: T) | Err(error: string)

  datatype Header = Header(caller: Option<nat>, callees: Option<seq<nat>>)
  datatype Blob = Blob(contract: string, header: Option<Header>, payload: Bytes)
  datatype Calldata = Calldata(identity: string, index: nat, blobs: seq<(nat, Blob)>)

  /** The first blob filed under an index. */
  function Get(blobs: seq<(nat, Blob)>, index: nat): (r: Option<Blob>)
    ensures r.Some? ==> exists k :: 0 <= k < |blobs| && blobs[k] == (index, r.value)
    ensures r.None? <==> forall k :: 0 <= k < |blobs| ==> blobs[k].0 != index
  {
    if blobs == [] then None
    else if blobs[0].0 == index then Some(blobs[0].1)
    else
      var r := Get(blobs[1..], index);
      assert forall k :: 1 <= k < |blobs| ==> blobs[k] == blobs[1..][k - 1];
      r
  }

  predicate HasCaller(b: Blob, j: nat) {
    b.header.Some? && b.header.value.caller == Some(j)
  }

  predicate HasCallee(b: Blob, i: nat) {
    b.header.Some? && b.header.value.callees.Some? && i in b.header.value.callees.value
  }

  /** The entries whose caller is `j`, in order. */
  function CalledBy(blobs: seq<(nat, Blob)>, j: nat): seq<(nat, Blob)> {
    if blobs == [] then []
    else if HasCaller(blobs[0].1, j) then [blobs[0]] + CalledBy(blobs[1..], j)
    else CalledBy(blobs[1..], j)
  }

  function Indices(blobs: seq<(nat, Blob)>): seq<nat> {
    seq(|blobs|, i requires 0 <= i < |blobs| => blobs[i].0)
  }

  function BlobsOf(blobs: seq<(nat, Blob)>): seq<Blob> {
    seq(|blobs|, i requires 0 <= i < |blobs| => blobs[i].1)
  }

  /** The caller the contract may trust: a blob that lists this one, or the user when none does. */
  function CheckCallerCallees(cd: Calldata, h: Header): Result<string> {
    if h.callees.Some? && h.callees.value != Indices(CalledBy(cd.blobs, cd.index)) then
      Err("Blob callees do not match actual callees")
    else
      match h.caller
      case Some(c) =>
        if c == cd.index then Err("Self-reference as callee is forbidden")
        else (
          match Get(cd.blobs, c)
          case None => Err("Caller index not found in blobs")
          case Some(b) =>
            if b.header.None? then Err("Could not parse caller as a StructuredBlob")
            else if b.header.value.callees.None? then Err("Caller does not have any callees")
            else if cd.index !in b.header.value.callees.value then Err("Incorrect Caller for this blob")
            else Ok(b.contract)
        )
      case None =>
        if exists k :: 0 <= k < |cd.blobs| && HasCallee(cd.blobs[k].1, cd.index) then
          Err("Blob has no caller but another blob claims it as a callee")
        else Ok(cd.identity)
  }

  //  Callers and callees of a whole transaction

  predicate DistinctIndices(blobs: seq<(nat, Blob)>) {
    forall k, l :: 0 <= k < l < |blobs| ==> blobs[k].0 != blobs[l].0
  }

  /** Every blob with a header was accepted by its own contract. */
  predicate AllAccepted(identity: string, blobs: seq<(nat, Blob)>) {
    forall k :: 0 <= k < |blobs| && blobs[k].1.header.Some? ==>
      CheckCallerCallees(Calldata(identity, blobs[k].0, blobs), blobs[k].1.header.value).Ok?
  }

  predicate NamesCaller(blobs: seq<(nat, Blob)>, i: nat, j: nat) {
    var b := Get(blobs, i);
    b.Some? && HasCaller(b.value, j)
  }

  predicate ListsCallee(blobs: seq<(nat, Blob)>, j: nat, i: nat) {
    var b := Get(blobs, j);
    b.Some? && HasCallee(b.value, i)
  }

  lemma {:induction false} CalledByEntries(blobs: seq<(nat, Blob)>, j: nat, e: (nat, Blob))
    ensures e in CalledBy(blobs, j) <==> e in blobs && HasCaller(e.1, j)
  {
    if blobs != [] {
      CalledByEntries(blobs[1..], j, e);
      assert blobs == [blobs[0]] + blobs[1..];
    }
  }

  lemma GetOwn(blobs: seq<(nat, Blob)>, e: (nat, Blob))
    requires DistinctIndices(blobs) && e in blobs
    ensures Get(blobs, e.0) == Some(e.1)
  {
    var k :| 0 <= k < |blobs| && blobs[k] == e;
    var l :| 0 <= l < |blobs| && blobs[l] == (e.0, Get(blobs, e.0).value);
  }

  lemma CallerLists(identity: string, blobs: seq<(nat, Blob)>, i: nat, j: nat)
    requires AllAccepted(identity, blobs) && NamesCaller(blobs, i, j)
    ensures ListsCallee(blobs, j, i) && i != j
  {
    var k :| 0 <= k < |blobs| && blobs[k] == (i, Get(blobs, i).value);
    assert CheckCallerCallees(Calldata(identity, i, blobs), blobs[k].1.header.value).Ok?;
  }

  lemma CalleeNames(identity: string, blobs: seq<(nat, Blob)>, i: nat, j: nat)
    requires DistinctIndices(blobs) && AllAccepted(identity, blobs) && ListsCallee(blobs, j, i)
    ensures NamesCaller(blobs, i, j)
  {
    var k :| 0 <= k < |blobs| && blobs[k] == (j, Get(blobs, j).value);
    assert CheckCallerCallees(Calldata(identity, j, blobs), blobs[k].1.header.value).Ok?;
    var called := CalledBy(blobs, j);
    assert i in Indices(called);
    var l :| 0 <= l < |called| && called[l].0 == i;
    CalledByEntries(blobs, j, called[l]);
    GetOwn(blobs, called[l]);
  }

  /** In a transaction whose blobs were all accepted, `i` names `j` as its caller exactly when `j` lists `i`. */
  lemma CallerIffCallee(identity: string, blobs: seq<(nat, Blob)>, i: nat, j: nat)
    requires DistinctIndices(blobs) && AllAccepted(identity, blobs)
    ensures NamesCaller(blobs, i, j) <==> ListsCallee(blobs, j, i)
    ensures NamesCaller(blobs, i, j) ==> i != j
  {
    if NamesCaller(blobs, i, j) {
      CallerLists(identity, blobs, i, j);
    }
    if ListsCallee(blobs, j, i) {
      CalleeNames(identity, blobs, i, j);
    }
  }

  /** No blob is listed by two others. */
  lemma OneCallerEach(identity: string, blobs: seq<(nat, Blob)>, i: nat, j: nat, j': nat)
    requires DistinctIndices(blobs) && AllAccepted(identity, blobs)
    requires ListsCallee(blobs, j, i) && ListsCallee(blobs, j', i)
    ensures j == j'
  {
    CallerIffCallee(identity, blobs, i, j);
    CallerIffCallee(identity, blobs, i, j');
  }

  //  The execution context

  datatype Context = Context(callees: seq<Blob>, caller: string, contract: string)

  function Parse<A>(cd: Calldata, decode: Decoder<A>): Result<(A, Context)> {
    match Get(cd.blobs, cd.index)
    case None => Err("Failed to parse input blob")
    case Some(b) =>
      if b.header.None? || decode(b.payload).None? then Err("Failed to parse input blob")
      else
        match CheckCallerCallees(cd, b.header.value)
        case Err(e) => Err(e)
        case Ok(caller) =>
          Ok((decode(b.payload).value, Context(BlobsOf(CalledBy(cd.blobs, cd.index)), caller, b.contract)))
  }

  lemma {:induction false} CalledByDistinct(blobs: seq<(nat, Blob)>, j: nat, k: nat)
    requires DistinctIndices(blobs) && k < |CalledBy(blobs, j)|
    ensures Get(blobs, CalledBy(blobs, j)[k].0) == Some(CalledBy(blobs, j)[k].1)
  {
    var e := CalledBy(blobs, j)[k];
    CalledByEntries(blobs, j, e);
    GetOwn(blobs, e);
  }

  /** The context of an accepted blob holds the blobs it lists, one for one and in that order. */
  lemma ContextHoldsCallees<A>(cd: Calldata, decode: Decoder<A>)
    requires DistinctIndices(cd.blobs) && Parse(cd, decode).Ok?
    requires Get(cd.blobs, cd.index).value.header.value.callees.Some?
    ensures var listed := Get(cd.blobs, cd.index).value.header.value.callees.value;
            var callees := Parse(cd, decode).value.1.callees;
            && |callees| == |listed|
            && forall k :: 0 <= k < |listed| ==> Get(cd.blobs, listed[k]) == Some(callees[k])
  {
    forall k | 0 <= k < |CalledBy(cd.blobs, cd.index)|
      ensures Get(cd.blobs, Indices(CalledBy(cd.blobs, cd.index))[k]) == Some(BlobsOf(CalledBy(cd.blobs, cd.index))[k])
    {
      CalledByDistinct(cd.blobs, cd.index, k);
    }
  }

  //  Consuming callees

  /** A contract asks for a callee of some contract whose payload decodes to the action it expects. */
  datatype Call = Call(contract: string, accepts: Bytes -> bool)

  predicate Matches(call: Call, b: Blob) {
    b.contract == call.contract && b.header.Some? && call.accepts(b.payload)
  }

  /** Position of the first callee that matches, or the number of callees. */
  function Position(callees: seq<Blob>, call: Call): (p: nat)
    ensures p <= |callees|
    ensures p < |callees| ==> Matches(call, callees[p])
    ensures forall k :: 0 <= k < p ==> !Matches(call, callees[k])
  {
    if callees == [] || Matches(call, callees[0]) then 0
    else
      var p := 1 + Position(callees[1..], call);
      assert forall k :: 1 <= k < p ==> callees[k] == callees[1..][k - 1];
      p
  }

  function Without(callees: seq<Blob>, p: nat): seq<Blob>
    requires p < |callees|
  {
    callees[..p] + callees[p + 1..]
  }

  datatype Granted = Granted(call: Call, blob: Blob)

  /** What is left of the callees after some calls, and which calls were granted which callee. */
  datatype Consumption = Consumption(left: seq<Blob>, granted: seq<Granted>)

  function Consume(c: Consumption, call: Call): Consumption {
    var p := Position(c.left, call);
    if p == |c.left| then c
    else Consumption(Without(c.left, p), c.granted + [Granted(call, c.left[p])])
  }

  function ConsumeAll(c: Consumption, calls: seq<Call>): Consumption
    decreases |calls|
  {
    if calls == [] then c else ConsumeAll(Consume(c, calls[0]), calls[1..])
  }

  function GrantedBlobs(granted: seq<Granted>): seq<Blob> {
    seq(|granted|, i requires 0 <= i < |granted| => granted[i].blob)
  }

  /** The callees are those granted and those left; each granted one matches its call. */
  ghost predicate Conserves(callees: seq<Blob>, c: Consumption) {
    && multiset(callees) == multiset(GrantedBlobs(c.granted)) + multiset(c.left)
    && forall k :: 0 <= k < |c.granted| ==> Matches(c.granted[k].call, c.granted[k].blob)
  }

  lemma WithoutSplits(callees: seq<Blob>, p: nat)
    requires p < |callees|
    ensures multiset(callees) == multiset{callees[p]} + multiset(Without(callees, p))
  {
    assert callees == callees[..p] + ([callees[p]] + callees[p + 1..]);
  }

  lemma ConsumeConserves(callees: seq<Blob>, c: Consumption, call: Call)
    requires Conserves(callees, c)
    ensures Conserves(callees, Consume(c, call))
  {
    var p := Position(c.left, call);
    if p < |c.left| {
      WithoutSplits(c.left, p);
      var more := Granted(call, c.left[p]);
      assert GrantedBlobs(c.granted + [more]) == GrantedBlobs(c.granted) + [more.blob];
    }
  }

  lemma {:induction false} ConsumeAllConserves(callees: seq<Blob>, c: Consumption, calls: seq<Call>)
    requires Conserves(callees, c)
    ensures Conserves(callees, ConsumeAll(c, calls))
    decreases |calls|
  {
    if calls != [] {
      ConsumeConserves(callees, c, calls[0]);
      ConsumeAllConserves(callees, Consume(c, calls[0]), calls[1..]);
    }
  }

  //  The output

  datatype Output = Output(
    initialState: Bytes,
    nextState: Bytes,
    identity: string,
    index: nat,
    blobs: seq<(nat, Blob)>,
    success: bool,
    programOutputs: Bytes,
    effects: seq<Bytes>
  )

  datatype Outcome = Ran(output: Bytes, left: seq<Blob>, effects: seq<Bytes>) | Failed(message: Bytes)

  function Fail(cd: Calldata, initial: Bytes, message: Bytes): Output {
    Output(initial, initial, cd.identity, cd.index, cd.blobs, false, message, [])
  }

  function AsOutput(initial: Bytes, next: Bytes, cd: Calldata, res: Outcome, unconsumed: Bytes): Output {
    match res
    case Failed(message) => Fail(cd, initial, message)
    case Ran(output, left, effects) =>
      if left != [] then Fail(cd, initial, unconsumed)
      else Output(initial, next, cd.identity, cd.index, cd.blobs, true, output, effects)
  }

  /** What is left, and who got what, after the calls of a contract that parsed its calldata. */
  function RunOf<A>(cd: Calldata, decode: Decoder<A>, calls: seq<Call>): Consumption
    requires Parse(cd, decode).Ok?
  {
    ConsumeAll(Consumption(Parse(cd, decode).value.1.callees, []), calls)
  }

  /**
    A contract that parsed its calldata, made any calls and produced a successful output has
    consumed each blob that names it as caller exactly once, each by a call that matches it.
   */
  lemma SuccessConsumesCallees<A>(
    cd: Calldata, decode: Decoder<A>, calls: seq<Call>, initial: Bytes, next: Bytes,
    output: Bytes, effects: seq<Bytes>, unconsumed: Bytes
  )
    requires Parse(cd, decode).Ok?
    requires AsOutput(initial, next, cd, Ran(output, RunOf(cd, decode, calls).left, effects), unconsumed).success
    ensures var granted := RunOf(cd, decode, calls).granted;
            var called := CalledBy(cd.blobs, cd.index);
            && |granted| == |called|
            && multiset(GrantedBlobs(granted)) == multiset(BlobsOf(called))
            && forall k :: 0 <= k < |granted| ==> Matches(granted[k].call, granted[k].blob)
  {
    var callees := Parse(cd, decode).value.1.callees;
    var granted := RunOf(cd, decode, calls).granted;
    assert callees == BlobsOf(CalledBy(cd.blobs, cd.index));
    ConsumeAllConserves(callees, Consumption(callees, []), calls);
    assert multiset(callees) == multiset(GrantedBlobs(granted));
    assert |callees| == |multiset(callees)| == |multiset(GrantedBlobs(granted))| == |granted|;
  }

  /** Those blobs are the listed callees of an accepted blob, and there are none for one that lists none. */
  lemma CalledAreListed<A>(identity: string, cd: Calldata, decode: Decoder<A>)
    requires DistinctIndices(cd.blobs) && AllAccepted(identity, cd.blobs) && Parse(cd, decode).Ok?
    ensures var listed := Get(cd.blobs, cd.index).value.header.value.callees.GetOr([]);
            var called := CalledBy(cd.blobs, cd.index);
            && |called| == |listed|
            && forall k :: 0 <= k < |listed| ==> Get(cd.blobs, listed[k]) == Some(called[k].1)
  {
    var called := CalledBy(cd.blobs, cd.index);
    if Get(cd.blobs, cd.index).value.header.value.callees.Some? {
      ContextHoldsCallees(cd, decode);
    } else if called != [] {
      CalledByEntries(cd.blobs, cd.index, called[0]);
      GetOwn(cd.blobs, called[0]);
      CallerIffCallee(identity, cd.blobs, called[0].0, cd.index);
    }
  }

  //  Exact calls

  type Want = (string, Bytes)

  function Exactly(w: Want): Call {
    Call(w.0, payload => payload == w.1)
  }

  function ExactlyAll(wants: seq<Want>): seq<Call> {
    seq(|wants|, i requires 0 <= i < |wants| => Exactly(wants[i]))
  }

  function Offers(callees: seq<Blob>): seq<Want> {
    seq(|callees|, i requires 0 <= i < |callees| => (callees[i].contract, callees[i].payload))
  }

  /** Every call was granted and nothing is left. */
  predicate UsedUp(c: Consumption, calls: nat) {
    c.left == [] && |c.granted| == calls
  }

  lemma OffersWithout(callees: seq<Blob>, p: nat)
    requires p < |callees|
    ensures multiset(Offers(callees)) == multiset{Offers(callees)[p]} + multiset(Offers(Without(callees, p)))
  {
    var o := Offers(callees);
    assert o == o[..p] + ([o[p]] + o[p + 1..]);
    assert Offers(Without(callees, p)) == o[..p] + o[p + 1..];
  }

  lemma {:induction false} GrantsAreBounded(c: Consumption, calls: seq<Call>)
    ensures |ConsumeAll(c, calls).granted| <= |c.granted| + |calls|
    decreases |calls|
  {
    if calls != [] {
      GrantsAreBounded(Consume(c, calls[0]), calls[1..]);
    }
  }

  /**
    Calls that each expect one exact action are all granted and use up the callees exactly when
    they are the callees in some order, whatever the order of the calls.
   */
  lemma {:induction false} ExactCallsUseUpIff(c: Consumption, wants: seq<Want>)
    requires forall k :: 0 <= k < |c.left| ==> c.left[k].header.Some?
    ensures UsedUp(ConsumeAll(c, ExactlyAll(wants)), |c.granted| + |wants|) <==> multiset(Offers(c.left)) == multiset(wants)
    decreases |wants|
  {
    if wants == [] {
      if c.left != [] {
        assert Offers(c.left)[0] in multiset(Offers(c.left));
      }
    } else {
      var w, rest := wants[0], wants[1..];
      var p := Position(c.left, Exactly(w));
      var c1 := Consume(c, Exactly(w));
      assert ExactlyAll(wants)[1..] == ExactlyAll(rest);
      assert wants == [w] + rest;
      if p < |c.left| {
        assert Offers(c.left)[p] == w;
        OffersWithout(c.left, p);
        ExactCallsUseUpIff(c1, rest);
        SameRest(multiset(Offers(c.left)), multiset(Offers(c1.left)), multiset(rest), w);
      } else {
        GrantsAreBounded(c, ExactlyAll(rest));
        forall k | 0 <= k < |c.left| ensures Offers(c.left)[k] != w {
          assert !Matches(Exactly(w), c.left[k]);
        }
        assert w !in multiset(Offers(c.left)) && w in multiset(wants);
      }
    }
  }

  lemma SameRest<T>(a: multiset<T>, a1: multiset<T>, b: multiset<T>, x: T)
    requires a == multiset{x} + a1
    ensures a == multiset{x} + b <==> a1 == b
  {
    assert multiset{x} + a1 - multiset{x} == a1;
    assert multiset{x} + b - multiset{x} == b;
  }

  //  The program's loops and updates

  class ExecutionContext {
    var calleesBlobs: seq<Blob>
    var caller: string
    var contractName: string

    constructor (callees: seq<Blob>, caller: string, contract: string)
      ensures calleesBlobs == callees && this.caller == caller && contractName == contract
    {
      calleesBlobs, this.caller, contractName := callees, caller, contract;
    }

    /** Takes the first matching callee out of the list; without one, nothing changes and the call fails. */
    method IsInCalleeBlobs(call: Call) returns (ok: bool)
      modifies this`calleesBlobs
      ensures ok <==> exists k :: 0 <= k < |old(calleesBlobs)| && Matches(call, old(calleesBlobs)[k])
      ensures forall granted :: Consume(Consumption(old(calleesBlobs), granted), call).left == calleesBlobs
      ensures !ok ==> calleesBlobs == old(calleesBlobs)
    {
      var i := 0;
      while i < |calleesBlobs|
        invariant 0 <= i <= |calleesBlobs| && calleesBlobs == old(calleesBlobs)
        invariant forall k :: 0 <= k < i ==> !Matches(call, calleesBlobs[k])
      {
        if Matches(call, calleesBlobs[i]) {
          assert Position(calleesBlobs, call) == i;
          calleesBlobs := calleesBlobs[..i] + calleesBlobs[i + 1..];
          return true;
        }
        i := i + 1;
      }
      assert Position(calleesBlobs, call) == |calleesBlobs|;
      ok := false;
    }
  }

  method ParseCalldata<A>(cd: Calldata, decode: Decoder<A>) returns (r: Result<(A, Context)>)
    ensures r == Parse(cd, decode)
  {
    var input := Get(cd.blobs, cd.index);
    if input.None? || input.value.header.None? {
      return Err("Failed to parse input blob");
    }
    var action := decode(input.value.payload);
    if action.None? {
      return Err("Failed to parse input blob");
    }
    var caller := CheckCallerCallees(cd, input.value.header.value);
    if caller.Err? {
      return Err(caller.error);
    }
    var callees := CalleesBlobs(cd.blobs, cd.index);
    r := Ok((action.value, Context(callees, caller.value, input.value.contract)));
  }

  method CalleesBlobs(blobs: seq<(nat, Blob)>, index: nat) returns (callees: seq<Blob>)
    ensures callees == BlobsOf(CalledBy(blobs, index))
  {
    callees := [];
    var i := 0;
    while i < |blobs|
      invariant 0 <= i <= |blobs|
      invariant BlobsOf(CalledBy(blobs, index)) == callees + BlobsOf(CalledBy(blobs[i..], index))
    {
      var blob := blobs[i].1;
      assert blobs[i..][1..] == blobs[i + 1..];
      if HasCaller(blob, index) {
        assert BlobsOf(CalledBy(blobs[i..], index)) == [blob] + BlobsOf(CalledBy(blobs[i + 1..], index));
        callees := callees + [blob];
      }
      i := i + 1;
    }
  }

  /** The result of a contract's run, from which the output is taken. */
  class RunResult {
    var outcome: Outcome

    constructor (outcome: Outcome)
      ensures this.outcome == outcome
    {
      this.outcome := outcome;
    }

    /** A successful output moves the program's output and effects out of the result. */
    method AsHyleOutput(initial: Bytes, next: Bytes, cd: Calldata, unconsumed: Bytes) returns (out: Output)
      modifies this
      ensures out == AsOutput(initial, next, cd, old(outcome), unconsumed)
      ensures out.success <==> old(outcome).Ran? && old(outcome).left == []
      ensures outcome == if out.success then Ran([], [], []) else old(outcome)
      ensures !out.success ==> out.nextState == out.initialState
    {
      match outcome {
        case Failed(message) => out := Fail(cd, initial, message);
        case Ran(output, left, effects) =>
          if left != [] {
            return Fail(cd, initial, unconsumed);
          }
          outcome := Ran([], [], []);
          out := Output(initial, next, cd.identity, cd.index, cd.blobs, true, output, effects);
      }
    }
  }
}
