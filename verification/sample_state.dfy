/**
 The state record, the closed action set and the reducer of the sample
 context: a pure, total transition function that replaces (or, for the
 toggle, flips) exactly one field of the state.
 */
module SampleState {

  /** The closed set of colours a state may hold. */
  datatype Color = Red | Orange | Yellow

  /** The state record; every field is always present. */
  datatype State = State(count: int, text: string, color: Color, isGood: bool)

  /** The four action variants, each carrying exactly the payload it needs. */
  datatype Action =
    | SetCount(count: int)
    | SetText(text: string)
    | SetColor(color: Color)
    | ToggleGood

  /** Names for the four fields of a state. */
  datatype Field = CountField | TextField | ColorField | GoodField

  /** The seed state the provider starts from. */
  function Init(): State {
    State(1, "hi", Yellow, false)
  }

  /** The field that an action is about. */
  function Addresses(a: Action): Field {
    match a
    case SetCount(_) => CountField
    case SetText(_) => TextField
    case SetColor(_) => ColorField
    case ToggleGood => GoodField
  }

  /** `s` and `t` hold the same value in field `f`. */
  predicate Agree(s: State, t: State, f: Field) {
    match f
    case CountField => s.count == t.count
    case TextField => s.text == t.text
    case ColorField => s.color == t.color
    case GoodField => s.isGood == t.isGood
  }

  /** The field a setter addresses holds that setter's payload in `s` (vacuous for the toggle). */
  predicate Installs(s: State, a: Action) {
    match a
    case SetCount(n) => s.count == n
    case SetText(x) => s.text == x
    case SetColor(c) => s.color == c
    case ToggleGood => true
  }

  /**
   The transition function. The match covers every variant, so the
   "Unhandled action" fallback of a dynamically typed caller has no
   counterpart here: no action reaches it.
   */
  function Reducer(s: State, a: Action): (r: State)
    ensures r.count == (if a.SetCount? then a.count else s.count)
    ensures r.text == (if a.SetText? then a.text else s.text)
    ensures r.color == (if a.SetColor? then a.color else s.color)
    ensures r.isGood == (if a.ToggleGood? then !s.isGood else s.isGood)
  {
    match a
    case SetCount(n) => s.(count := n)
    case SetText(x) => s.(text := x)
    case SetColor(c) => s.(color := c)
    case ToggleGood => s.(isGood := !s.isGood)
  }

  /**
   Frame: every field the action does not address is carried over, and the
   addressed field holds the setter's payload (or the flipped flag).
   */
  lemma ReducerFrame(s: State, a: Action)
    ensures forall f :: f != Addresses(a) ==> Agree(s, Reducer(s, a), f)
    ensures !a.ToggleGood? ==> Installs(Reducer(s, a), a)
    ensures a.ToggleGood? ==> !Agree(s, Reducer(s, a), GoodField)
  {
  }

  /** A transition leaves the state as it was exactly when it rewrites a field with its current value. */
  lemma ReducerFixpoint(s: State, a: Action)
    ensures Reducer(s, a) == s <==> !a.ToggleGood? && Installs(s, a)
  {
  }

  /** Toggling twice restores the original state. */
  lemma ToggleGoodInvolution(s: State)
    ensures Reducer(Reducer(s, ToggleGood), ToggleGood) == s
    ensures Reducer(s, ToggleGood) != s
  {
  }

  /** A later setter of the same field overrides an earlier one (last write wins). */
  lemma SetterOverrides(s: State, a: Action, b: Action)
    requires !b.ToggleGood? && Addresses(a) == Addresses(b)
    ensures Reducer(Reducer(s, a), b) == Reducer(s, b)
  {
  }

  /** Actions about different fields commute. */
  lemma IndependentActionsCommute(s: State, a: Action, b: Action)
    requires Addresses(a) != Addresses(b)
    ensures Reducer(Reducer(s, a), b) == Reducer(Reducer(s, b), a)
  {
  }
}
