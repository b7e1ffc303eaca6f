/**
 A provider's observable behaviour over time: start from the seed state and
 apply the reducer to every dispatched action, in order.
 */
module SampleRun {
  import opened SampleState

  /** The state reached from `s` after the actions `acts`, one at a time. */
  function Replay(s: State, acts: seq<Action>): State
    decreases |acts|
  {
    if acts == [] then s else Replay(Reducer(s, acts[0]), acts[1..])
  }

  /** The state of a freshly mounted provider after the dispatches `acts`. */
  function Run(acts: seq<Action>): State {
    Replay(Init(), acts)
  }

  /** `i` is a position of `acts` that no later action addresses the same field as. */
  predicate LastWriteAt(acts: seq<Action>, i: int) {
    && 0 <= i < |acts|
    && forall j :: i < j < |acts| ==> Addresses(acts[j]) != Addresses(acts[i])
  }

  /** No action of `acts` addresses field `f`. */
  predicate Untouched(acts: seq<Action>, f: Field) {
    forall j :: 0 <= j < |acts| ==> Addresses(acts[j]) != f
  }

  /** Dispatching one more action applies the reducer to the state reached so far. */
  lemma {:induction false} ReplaySnoc(s: State, acts: seq<Action>, a: Action)
    ensures Replay(s, acts + [a]) == Reducer(Replay(s, acts), a)
    decreases |acts|
  {
    if acts == [] {
      assert acts + [a] == [a];
      assert [a][1..] == [];
    } else {
      assert (acts + [a])[0] == acts[0];
      assert (acts + [a])[1..] == acts[1..] + [a];
      ReplaySnoc(Reducer(s, acts[0]), acts[1..], a);
    }
  }

  /** Dispatching two batches in turn is dispatching their concatenation. */
  lemma {:induction false} ReplayConcat(s: State, xs: seq<Action>, ys: seq<Action>)
    ensures Replay(s, xs + ys) == Replay(Replay(s, xs), ys)
    decreases |xs|
  {
    if xs == [] {
      assert xs + ys == ys;
    } else {
      assert (xs + ys)[0] == xs[0];
      assert (xs + ys)[1..] == xs[1..] + ys;
      ReplayConcat(Reducer(s, xs[0]), xs[1..], ys);
    }
  }

  /**
   Last write wins: a field no action addresses keeps its starting value,
   and a field holds the payload of the last setter that addressed it.
   */
  lemma {:induction false} ReplayLastWrite(s: State, acts: seq<Action>)
    ensures forall f :: Untouched(acts, f) ==> Agree(s, Replay(s, acts), f)
    ensures forall i :: LastWriteAt(acts, i) && !acts[i].ToggleGood? ==> Installs(Replay(s, acts), acts[i])
    decreases |acts|
  {
    if acts != [] {
      var s' := Reducer(s, acts[0]);
      var rest := acts[1..];
      ReplayLastWrite(s', rest);
      ReducerFrame(s, acts[0]);
      forall f | Untouched(acts, f)
        ensures Agree(s, Replay(s, acts), f)
      {
        assert Addresses(acts[0]) != f;
        assert Untouched(rest, f) by {
          forall j | 0 <= j < |rest| ensures Addresses(rest[j]) != f {
            assert rest[j] == acts[j + 1];
          }
        }
      }
      forall i | LastWriteAt(acts, i) && !acts[i].ToggleGood?
        ensures Installs(Replay(s, acts), acts[i])
      {
        if i == 0 {
          var f := Addresses(acts[0]);
          assert Untouched(rest, f) by {
            forall j | 0 <= j < |rest| ensures Addresses(rest[j]) != f {
              assert rest[j] == acts[j + 1];
            }
          }
          assert Agree(s', Replay(s', rest), f);
        } else {
          assert rest[i - 1] == acts[i];
          assert LastWriteAt(rest, i - 1) by {
            forall j | i - 1 < j < |rest| ensures Addresses(rest[j]) != Addresses(rest[i - 1]) {
              assert rest[j] == acts[j + 1];
            }
          }
        }
      }
    }
  }

  /** `isGood` ends up flipped exactly when an odd number of toggles was dispatched. */
  lemma {:induction false} ReplayToggleParity(s: State, acts: seq<Action>)
    ensures Replay(s, acts).isGood == (s.isGood != (multiset(acts)[ToggleGood] % 2 == 1))
    decreases |acts|
  {
    if acts != [] {
      ReplayToggleParity(Reducer(s, acts[0]), acts[1..]);
      assert acts == [acts[0]] + acts[1..];
      assert multiset(acts) == multiset{acts[0]} + multiset(acts[1..]);
    }
  }

  /**
   After any dispatches, `count` is the payload of the last `SetCount`, or
   the seed's 1 when there was none.
   */
  lemma RunCount(acts: seq<Action>)
    ensures (forall j :: 0 <= j < |acts| ==> !acts[j].SetCount?) ==> Run(acts).count == 1
    ensures forall i :: 0 <= i < |acts| && acts[i].SetCount?
                        && (forall j :: i < j < |acts| ==> !acts[j].SetCount?)
                        ==> Run(acts).count == acts[i].count
  {
    ReplayLastWrite(Init(), acts);
    forall i | 0 <= i < |acts| && acts[i].SetCount? && (forall j :: i < j < |acts| ==> !acts[j].SetCount?)
      ensures Run(acts).count == acts[i].count
    {
      assert LastWriteAt(acts, i);
    }
    if forall j :: 0 <= j < |acts| ==> !acts[j].SetCount? {
      assert Untouched(acts, CountField);
    }
  }

  /** After any dispatches, `text` is the payload of the last `SetText`, or the seed's "hi". */
  lemma RunText(acts: seq<Action>)
    ensures (forall j :: 0 <= j < |acts| ==> !acts[j].SetText?) ==> Run(acts).text == "hi"
    ensures forall i :: 0 <= i < |acts| && acts[i].SetText?
                        && (forall j :: i < j < |acts| ==> !acts[j].SetText?)
                        ==> Run(acts).text == acts[i].text
  {
    ReplayLastWrite(Init(), acts);
    forall i | 0 <= i < |acts| && acts[i].SetText? && (forall j :: i < j < |acts| ==> !acts[j].SetText?)
      ensures Run(acts).text == acts[i].text
    {
      assert LastWriteAt(acts, i);
    }
    if forall j :: 0 <= j < |acts| ==> !acts[j].SetText? {
      assert Untouched(acts, TextField);
    }
  }

  /** After any dispatches, `color` is the payload of the last `SetColor`, or the seed's yellow. */
  lemma RunColor(acts: seq<Action>)
    ensures (forall j :: 0 <= j < |acts| ==> !acts[j].SetColor?) ==> Run(acts).color == Yellow
    ensures forall i :: 0 <= i < |acts| && acts[i].SetColor?
                        && (forall j :: i < j < |acts| ==> !acts[j].SetColor?)
                        ==> Run(acts).color == acts[i].color
  {
    ReplayLastWrite(Init(), acts);
    forall i | 0 <= i < |acts| && acts[i].SetColor? && (forall j :: i < j < |acts| ==> !acts[j].SetColor?)
      ensures Run(acts).color == acts[i].color
    {
      assert LastWriteAt(acts, i);
    }
    if forall j :: 0 <= j < |acts| ==> !acts[j].SetColor? {
      assert Untouched(acts, ColorField);
    }
  }

  /** After any dispatches, `isGood` is true exactly when an odd number of toggles was dispatched. */
  lemma RunGood(acts: seq<Action>)
    ensures Run(acts).isGood <==> multiset(acts)[ToggleGood] % 2 == 1
  {
    ReplayToggleParity(Init(), acts);
  }

  /** The worked scenario: pick orange, then toggle. */
  lemma RunScenario()
    ensures Init() == State(1, "hi", Yellow, false)
    ensures Run([SetColor(Orange)]) == State(1, "hi", Orange, false)
    ensures Run([SetColor(Orange), ToggleGood]) == State(1, "hi", Orange, true)
  {
    assert [SetColor(Orange), ToggleGood][1..] == [ToggleGood];
  }
}
