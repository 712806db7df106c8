/**
 * The flat key dispatcher of the dictionary application (`refresh`) and the
 * `main` loop that calls it until it answers `Stop`. The key table does not
 * depend on the tab: `refresh` only records the tab that `1` and `2` select.
 */
module MainLoop {
  import opened Wrappers
  import opened Events
  import opened Vocabulary
  import opened Selection

  datatype RefreshState = Stop | Continue

  /** What one call of `refresh` does: the new tab index, the selection method it calls, its answer. */
  datatype Effect = Effect(tab: nat, call: Option<SelOp>, state: RefreshState)

  /** The tab index after `refresh` handles `recv`. */
  function RefreshTab(tab: nat, recv: Option<Event>): (t: nat)
    ensures IsKey(recv, '1') ==> t == 0
    ensures IsKey(recv, '2') ==> t == 1
    ensures !IsKey(recv, '1') && !IsKey(recv, '2') ==> t == tab
    ensures tab <= 1 ==> t <= 1
  {
    match recv
    case Some(Input(Char('1'))) => 0
    case Some(Input(Char('2'))) => 1
    case _ => tab
  }

  /** The selection method bound to the key of `recv`, if any. */
  function RefreshMethod(recv: Option<Event>): (m: Option<SelMethod>)
    ensures m.Some? ==> recv.Some? && recv.value.Input?
    ensures m == Some(MDown) <==> IsKey(recv, 'j')
    ensures m == Some(MUp) <==> IsKey(recv, 'k')
    ensures m == Some(MFocusLeft) <==> IsKey(recv, 'h')
    ensures m == Some(MFocusRight) <==> IsKey(recv, 'l')
  {
    match recv
    case Some(Input(Char('j'))) => Some(MDown)
    case Some(Input(Char('k'))) => Some(MUp)
    case Some(Input(Char('h'))) => Some(MFocusLeft)
    case Some(Input(Char('l'))) => Some(MFocusRight)
    case _ => None
  }

  /**
   * The effect of `refresh` on tab index `tab` when the selection points at
   * category `categoryIndex`. Key `l` reads `categories[categoryIndex]`, which
   * panics when the index is out of range.
   */
  function RefreshEffect(tab: nat, recv: Option<Event>, categories: seq<Category>, categoryIndex: nat): (r: Outcome<Effect>)
    ensures r.Panicked? <==> IsKey(recv, 'l') && categoryIndex >= |categories|
    ensures r.Panicked? ==> r.message == IndexPanic
    ensures r.Done? ==> r.value.tab == RefreshTab(tab, recv)
    ensures r.Done? ==> (r.value.state == Stop <==> IsKey(recv, 'q'))
    ensures r.Done? ==> (r.value.call.Some? <==> RefreshMethod(recv).Some?)
    ensures r.Done? && r.value.call.Some? ==> MethodOf(r.value.call.value) == RefreshMethod(recv).value
    ensures r.Done? && IsKey(recv, 'l') ==> r.value.call == Some(FocusRight(|categories[categoryIndex].words|))
    ensures recv.None? || recv.value.Tick? ==> r == Done(Effect(tab, None, Continue))
  {
    match recv
    case Some(Input(Char('q'))) => Done(Effect(tab, None, Stop))
    case Some(Input(Char('j'))) => Done(Effect(tab, Some(Down), Continue))
    case Some(Input(Char('k'))) => Done(Effect(tab, Some(Up), Continue))
    case Some(Input(Char('h'))) => Done(Effect(tab, Some(FocusLeft), Continue))
    case Some(Input(Char('l'))) =>
      if categoryIndex < |categories| then
        Done(Effect(tab, Some(FocusRight(|categories[categoryIndex].words|)), Continue))
      else
        Panicked(IndexPanic)
    case _ => Done(Effect(RefreshTab(tab, recv), None, Continue))
  }

  /** Key handling is the same in both tabs: only the recorded tab index differs. */
  lemma RefreshIgnoresTab(tab1: nat, tab2: nat, recv: Option<Event>, categories: seq<Category>, categoryIndex: nat)
    ensures RefreshEffect(tab1, recv, categories, categoryIndex).Panicked?
        <==> RefreshEffect(tab2, recv, categories, categoryIndex).Panicked?
    ensures RefreshEffect(tab1, recv, categories, categoryIndex).Done? ==>
      var e1 := RefreshEffect(tab1, recv, categories, categoryIndex).value;
      var e2 := RefreshEffect(tab2, recv, categories, categoryIndex).value;
      e1.call == e2.call && e1.state == e2.state
  {
  }

  /** The tab index after handling every event of `events`, in order. */
  function TabAfter(tab: nat, events: seq<Option<Event>>): nat
  {
    if events == [] then tab else RefreshTab(TabAfter(tab, events[..|events| - 1]), events[|events| - 1])
  }

  /** The selection methods called while handling `events`, in order. */
  function KeyMethods(events: seq<Option<Event>>): seq<SelMethod>
  {
    if events == [] then []
    else
      var m := RefreshMethod(events[|events| - 1]);
      KeyMethods(events[..|events| - 1]) + (if m.Some? then [m.value] else [])
  }

  /** Keys `1` and `2` are the only writes of the tab index, so it stays a valid tab. */
  lemma {:induction false} TabAfterInRange(tab: nat, events: seq<Option<Event>>)
    requires tab <= 1
    ensures TabAfter(tab, events) <= 1
  {
    if events != [] {
      TabAfterInRange(tab, events[..|events| - 1]);
    }
  }

  /** Without key presses the tab index and the selection are left alone. */
  lemma {:induction false} TicksChangeNothing(tab: nat, events: seq<Option<Event>>)
    requires forall i :: 0 <= i < |events| ==> events[i].None? || events[i].value.Tick?
    ensures TabAfter(tab, events) == tab
    ensures KeyMethods(events) == []
  {
    if events != [] {
      TicksChangeNothing(tab, events[..|events| - 1]);
    }
  }

  /** The locals of `main`: the tab index, the selection and the loaded vocabulary. */
  class App {
    var tabIndex: nat
    const states: Selection
    const categories: seq<Category>

    constructor (categories: seq<Category>)
      ensures tabIndex == 0 && this.categories == categories
      ensures fresh(states) && states.calls == []
    {
      this.categories := categories;
      states := new Selection(|categories|);
      tabIndex := 0;
    }

    /** `refresh`: handle at most one received event. */
    method Refresh(recv: Option<Event>) returns (r: Outcome<RefreshState>)
      modifies this`tabIndex, states
      ensures match RefreshEffect(old(tabIndex), recv, categories, old(states.categoryIndex))
        case Panicked(m) => r == Panicked(m) && tabIndex == old(tabIndex) && unchanged(states)
        case Done(e) =>
          && r == Done(e.state)
          && tabIndex == e.tab
          && (if e.call.Some? then states.calls == old(states.calls) + [e.call.value] else unchanged(states))
    {
      if recv.Some? && recv.value.Input? {
        match recv.value.key
        case Char('q') =>
          return Done(Stop);
        case Char('j') =>
          states.Down();
        case Char('k') =>
          states.Up();
        case Char('h') =>
          states.FocusLeft();
        case Char('l') =>
          var index := states.CategoryIndex();
          if index >= |categories| {
            return Panicked(IndexPanic);
          }
          states.FocusRight(|categories[index].words|);
        case Char('1') =>
          tabIndex := 0;
        case Char('2') =>
          tabIndex := 1;
        case _ =>
      }
      r := Done(Continue);
    }

    /**
     * The loop of `main` over a finite list of received events: it leaves on
     * `Stop`, which only key `q` produces, or when a call panics. `handled`
     * counts the events answered `Continue`.
     */
    method Run(events: seq<Option<Event>>) returns (handled: nat, end: LoopEnd)
      requires tabIndex <= 1
      modifies this`tabIndex, states
      ensures handled <= |events|
      ensures end == OutOfEvents ==> handled == |events|
      ensures end == Stopped ==> handled < |events| && IsKey(events[handled], 'q')
      ensures end.Panic? ==> handled < |events| && IsKey(events[handled], 'l') && end.message == IndexPanic
      ensures QuitFree(events[..handled])
      ensures tabIndex == TabAfter(old(tabIndex), events[..handled])
      ensures MethodsOf(states.calls) == MethodsOf(old(states.calls)) + KeyMethods(events[..handled])
      ensures tabIndex <= 1
    {
      handled, end := 0, OutOfEvents;
      while handled < |events|
        invariant handled <= |events|
        invariant QuitFree(events[..handled])
        invariant tabIndex == TabAfter(old(tabIndex), events[..handled])
        invariant MethodsOf(states.calls) == MethodsOf(old(states.calls)) + KeyMethods(events[..handled])
        invariant tabIndex <= 1
      {
        var recv := events[handled];
        assert events[..handled + 1][..handled] == events[..handled];
        var r := Refresh(recv);
        if r.Panicked? {
          return handled, Panic(r.message);
        } else if r.value == Stop {
          return handled, Stopped;
        }
        QuitFreeExtend(events, handled);
        handled := handled + 1;
      }
    }
  }
}
