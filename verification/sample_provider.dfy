/**
 The distribution layer: a provider owns one state value, publishes it with
 a dispatch handle, and the two accessors read what the nearest provider
 published, failing with "Cannot find SampleProvider" when there is none.
 */
module SampleProvider {
  import opened Wrappers
  import opened SampleState
  import opened SampleRun

  /** The message both accessors throw outside every provider. */
  const ProviderMissing: string := "Cannot find SampleProvider"

  /** The dispatch capability a provider publishes; it always feeds the reducer. */
  datatype DispatchHandle = ReducerDispatch

  /** A mounted provider instance, holding its current state. */
  datatype Provider = Provider(state: State)

  /** What a consumer sees through the two context channels; `None` is the `null` default. */
  datatype Scope = Scope(published: Option<State>, dispatcher: Option<DispatchHandle>)

  /** Mounting a provider seeds its state. */
  function Mount(): (p: Provider)
    ensures p.state.count == 1 && p.state.text == "hi"
    ensures p.state.color == Yellow && !p.state.isGood
  {
    Provider(Init())
  }

  /** Dispatching one action through a provider's handle replaces its state with the reducer's result. */
  function Dispatch(p: Provider, h: DispatchHandle, a: Action): (q: Provider)
    ensures q.state == Replay(p.state, [a])
  {
    match h
    case ReducerDispatch => Provider(Reducer(p.state, a))
  }

  /** The scope seen by components nested inside provider `p`. */
  function Publish(p: Provider): Scope {
    Scope(Some(p.state), Some(ReducerDispatch))
  }

  /** The scope seen by components outside every provider. */
  function Outside(): Scope {
    Scope(None, None)
  }

  /** The state accessor: the published state, or the missing-provider error. */
  function UseSampleState(published: Option<State>): (r: Result<State, Error>)
    ensures r.Success? <==> published.Some?
    ensures r.Success? ==> r.value == published.value
    ensures r.Failure? ==> r.error.message == ProviderMissing
  {
    match published
    case None => Failure(Error(ProviderMissing))
    case Some(s) => Success(s)
  }

  /** The dispatch accessor: the published handle, or the missing-provider error. */
  function UseSampleDispatch(dispatcher: Option<DispatchHandle>): (r: Result<DispatchHandle, Error>)
    ensures r.Success? <==> dispatcher.Some?
    ensures r.Success? ==> r.value == dispatcher.value
    ensures r.Failure? ==> r.error.message == ProviderMissing
  {
    match dispatcher
    case None => Failure(Error(ProviderMissing))
    case Some(d) => Success(d)
  }

  /** Inside a provider both accessors succeed, and the state accessor yields the provider's state. */
  lemma AccessorsInsideProvider(p: Provider)
    ensures UseSampleState(Publish(p).published) == Success(p.state)
    ensures UseSampleDispatch(Publish(p).dispatcher).Success?
  {
  }

  /** Outside every provider both accessors fail with the missing-provider error, never a default. */
  lemma AccessorsOutsideProvider()
    ensures UseSampleState(Outside().published) == Failure(Error("Cannot find SampleProvider"))
    ensures UseSampleDispatch(Outside().dispatcher) == Failure(Error("Cannot find SampleProvider"))
  {
  }

  /**
   The provider's serial event loop: each action is sent through the
   published handle in turn, and the resulting state is what the fold
   over those actions computes.
   */
  method DispatchEach(p: Provider, acts: seq<Action>) returns (q: Provider)
    ensures q.state == Replay(p.state, acts)
  {
    q := p;
    var i := 0;
    while i < |acts|
      invariant 0 <= i <= |acts|
      invariant q.state == Replay(p.state, acts[..i])
    {
      var h := UseSampleDispatch(Publish(q).dispatcher).value;
      q := Dispatch(q, h, acts[i]);
      ReplaySnoc(p.state, acts[..i], acts[i]);
      assert acts[..i + 1] == acts[..i] + [acts[i]];
      i := i + 1;
    }
    assert acts[..i] == acts;
  }

  /**
   A whole session seen by a consumer inside the provider: mount, dispatch
   `acts` in order, then read the state through the state accessor.
   */
  method Session(acts: seq<Action>) returns (r: Result<State, Error>)
    ensures r == Success(Run(acts))
  {
    var p := Mount();
    p := DispatchEach(p, acts);
    r := UseSampleState(Publish(p).published);
  }
}
