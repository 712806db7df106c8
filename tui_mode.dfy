/**
 * The two-tab dispatcher of the terminal application: `update` routes each
 * key press by tab index to `input_tab_one` (dictionary tab 0) or
 * `input_tab_two` (learn tab 1), and the loop of `tui_routine` starts a new
 * learn session whenever tab 1 is entered from tab 0. Drawing, the clock and
 * the random sampling are parameters or left out.
 */
module TuiMode {
  import opened Wrappers
  import opened Events
  import opened Vocabulary
  import opened Selection

  type Positive = n: nat | 1 <= n witness 1

  /** The number of words of a learn session (`WORDS_LEARN_SIZE`): some size of at least one. */
  const WordsLearnSize: Positive

  /** Message of the `panic!` in `update` for a tab index other than 0 and 1. */
  const TabPanic: string := "Tab index is invalid !"

  datatype UpdateState = Stop | Continue

  function Min(a: nat, b: nat): nat
  {
    if a <= b then a else b
  }

  // ---------------------------------------------------------------------
  // Learn tab: input_tab_two

  /** The state `input_tab_two` may change. */
  datatype Learn = Learn(tab: nat, wordIndex: nat, help: bool)

  /** The tab is one of the two tabs and the word index stays inside the session. */
  predicate ValidLearn(s: Learn)
  {
    s.tab <= 1 && s.wordIndex < WordsLearnSize
  }

  /** `input_tab_two`: `1` selects tab 0, `q` stops, `n` advances, `h` toggles the help. */
  function LearnKey(s: Learn, key: Key): (r: (Learn, UpdateState))
    ensures r.1 == Stop <==> key == Char('q')
    ensures ValidLearn(s) ==> ValidLearn(r.0)
    ensures key == Char('1') ==> r.0.tab == 0
    ensures r.0.tab != s.tab ==> key == Char('1') && r.0.tab == 0
    ensures r.0.wordIndex != s.wordIndex ==>
      key == Char('n') && r.0.wordIndex == s.wordIndex + 1 && !r.0.help
    ensures key == Char('n') && s.wordIndex < WordsLearnSize - 1 ==> r.0.wordIndex == s.wordIndex + 1
    ensures key == Char('n') && s.wordIndex >= WordsLearnSize - 1 ==> r.0 == s
    ensures key == Char('h') ==> r.0 == s.(help := !s.help)
    ensures r.0.help != s.help ==> key == Char('h') || key == Char('n')
  {
    match key
    case Char('1') => (s.(tab := 0), Continue)
    case Char('q') => (s, Stop)
    case Char('n') =>
      if s.wordIndex < WordsLearnSize - 1 then (s.(wordIndex := s.wordIndex + 1, help := false), Continue)
      else (s, Continue)
    case Char('h') => (s.(help := !s.help), Continue)
    case _ => (s, Continue)
  }

  /** Pressing `h` twice restores the learn state. */
  lemma HelpTwiceRestores(s: Learn)
    ensures LearnKey(LearnKey(s, Char('h')).0, Char('h')).0 == s
  {
  }

  /** The learn state after `k` presses of `n`. */
  function NextPresses(s: Learn, k: nat): Learn
  {
    if k == 0 then s else LearnKey(NextPresses(s, k - 1), Char('n')).0
  }

  /** Repeated `n` presses climb to the last word of the session and stay there. */
  lemma {:induction false} NextPressesReachLast(s: Learn, k: nat)
    requires s.wordIndex < WordsLearnSize
    ensures NextPresses(s, k).wordIndex == Min(s.wordIndex + k, WordsLearnSize - 1)
    ensures NextPresses(s, k).tab == s.tab
    ensures NextPresses(s, k).help == (if k > 0 && s.wordIndex < WordsLearnSize - 1 then false else s.help)
  {
    if k > 0 {
      NextPressesReachLast(s, k - 1);
    }
  }

  // ---------------------------------------------------------------------
  // Dictionary tab: input_tab_one

  /** What `input_tab_one` does: the new tab index, the selection method it calls, its answer. */
  datatype Browse = Browse(tab: nat, call: Option<SelOp>, state: UpdateState)

  /**
   * `input_tab_one` on tab index `tab` when the selection points at category
   * `categoryIndex`; key `l` reads `categories[categoryIndex]`, which panics out of range.
   */
  function BrowseKey(tab: nat, key: Key, categories: seq<Category>, categoryIndex: nat): (r: Outcome<Browse>)
    ensures r.Panicked? <==> key == Char('l') && categoryIndex >= |categories|
    ensures r.Panicked? ==> r.message == IndexPanic
    ensures r.Done? ==> (r.value.state == Stop <==> key == Char('q'))
    ensures r.Done? ==> r.value.tab == (if key == Char('2') then 1 else tab)
    ensures r.Done? ==> (r.value.call == Some(Down) <==> key == Char('j'))
    ensures r.Done? ==> (r.value.call == Some(Up) <==> key == Char('k'))
    ensures r.Done? ==> (r.value.call == Some(FocusLeft) <==> key == Char('h'))
    ensures r.Done? && key == Char('l') ==> r.value.call == Some(FocusRight(|categories[categoryIndex].words|))
    ensures r.Done? && r.value.call.Some? ==> key in {Char('j'), Char('k'), Char('h'), Char('l')}
  {
    match key
    case Char('2') => Done(Browse(1, None, Continue))
    case Char('q') => Done(Browse(tab, None, Stop))
    case Char('j') => Done(Browse(tab, Some(Down), Continue))
    case Char('k') => Done(Browse(tab, Some(Up), Continue))
    case Char('h') => Done(Browse(tab, Some(FocusLeft), Continue))
    case Char('l') =>
      if categoryIndex < |categories| then
        Done(Browse(tab, Some(FocusRight(|categories[categoryIndex].words|)), Continue))
      else
        Panicked(IndexPanic)
    case _ => Done(Browse(tab, None, Continue))
  }

  // ---------------------------------------------------------------------
  // Routing: update

  /** What `update` does to the learn state and the selection, and its answer. */
  datatype Step = Step(learn: Learn, call: Option<SelOp>, state: UpdateState)

  /** The selection method `update` calls for `recv` on tab index `tab`: only the dictionary tab calls one. */
  function UpdateMethod(tab: nat, recv: Option<Event>): (m: Option<SelMethod>)
    ensures m.Some? ==> tab == 0 && recv.Some? && recv.value.Input?
    ensures tab == 0 ==> (m == Some(MDown) <==> IsKey(recv, 'j'))
    ensures tab == 0 ==> (m == Some(MUp) <==> IsKey(recv, 'k'))
    ensures tab == 0 ==> (m == Some(MFocusLeft) <==> IsKey(recv, 'h'))
    ensures tab == 0 ==> (m == Some(MFocusRight) <==> IsKey(recv, 'l'))
  {
    if tab != 0 then None
    else
      match recv
      case Some(Input(Char('j'))) => Some(MDown)
      case Some(Input(Char('k'))) => Some(MUp)
      case Some(Input(Char('h'))) => Some(MFocusLeft)
      case Some(Input(Char('l'))) => Some(MFocusRight)
      case _ => None
  }

  /** The learn state `update` leaves when it does not panic. */
  function LearnAfter(s: Learn, recv: Option<Event>): (r: Learn)
    ensures ValidLearn(s) ==> ValidLearn(r)
    ensures s.tab != 1 ==> r.wordIndex == s.wordIndex && r.help == s.help
    ensures IsKey(recv, 'q') || recv.None? || recv.value.Tick? ==> r == s
  {
    if recv.Some? && recv.value.Input? then
      if s.tab == 0 then s.(tab := if recv.value.key == Char('2') then 1 else s.tab)
      else if s.tab == 1 then LearnKey(s, recv.value.key).0
      else s
    else
      s
  }

  /** `update`: route a received key press by tab index; a tick or a failed receive does nothing. */
  function UpdateStep(s: Learn, recv: Option<Event>, categories: seq<Category>, categoryIndex: nat): (r: Outcome<Step>)
    ensures r.Panicked? && r.message == TabPanic <==> recv.Some? && recv.value.Input? && s.tab > 1
    ensures s.tab <= 1 ==> (r.Panicked? <==> s.tab == 0 && IsKey(recv, 'l') && categoryIndex >= |categories|)
    ensures r.Done? ==> (r.value.state == Stop <==> IsKey(recv, 'q'))
    ensures r.Done? ==> r.value.learn == LearnAfter(s, recv)
    ensures r.Done? && ValidLearn(s) ==> ValidLearn(r.value.learn)
    ensures r.Done? && s.tab == 0 ==> r.value.learn.wordIndex == s.wordIndex && r.value.learn.help == s.help
    ensures r.Done? && s.tab == 1 ==> r.value.call == None
    ensures r.Done? ==> (r.value.call.Some? <==> UpdateMethod(s.tab, recv).Some?)
    ensures r.Done? && r.value.call.Some? ==> MethodOf(r.value.call.value) == UpdateMethod(s.tab, recv).value
    ensures recv.None? || recv.value.Tick? ==> r == Done(Step(s, None, Continue))
  {
    if recv.Some? && recv.value.Input? then
      var key := recv.value.key;
      if s.tab == 0 then
        match BrowseKey(s.tab, key, categories, categoryIndex)
        case Panicked(m) => Panicked(m)
        case Done(b) => Done(Step(s.(tab := b.tab), b.call, b.state))
      else if s.tab == 1 then
        var (learn, state) := LearnKey(s, key);
        Done(Step(learn, None, state))
      else
        Panicked(TabPanic)
    else
      Done(Step(s, None, Continue))
  }

  // ---------------------------------------------------------------------
  // The loop of tui_routine

  /** The loop's state: the learn state, the `swap` flag, the session start time and its words. */
  datatype Routine = Routine(tab: nat, wordIndex: nat, help: bool, swap: nat, begin: int, wordsSet: seq<Word>)

  function AsLearn(s: Routine): Learn
  {
    Learn(s.tab, s.wordIndex, s.help)
  }

  function WithLearn(s: Routine, l: Learn): Routine
  {
    s.(tab := l.tab, wordIndex := l.wordIndex, help := l.help)
  }

  predicate ValidRoutine(s: Routine)
  {
    ValidLearn(AsLearn(s)) && s.swap <= 1
  }

  /** The clock reading and the random draw available to one loop iteration. */
  datatype Env = Env(now: int, sample: seq<Word>)

  /** What `choose_multiple(WORDS_LEARN_SIZE)` may return: that many distinct entries, or all of them. */
  predicate IsSample(sample: seq<Word>, allWords: seq<Word>)
  {
    |sample| == Min(WordsLearnSize, |allWords|) && multiset(sample) <= multiset(allWords)
  }

  /**
   * The `Continue` arm of the loop body: tab 0 clears `swap`; tab 1 entered
   * with `swap == 0` starts a new session (timer, words, index, help), and
   * sets `swap` to 1.
   */
  function Redrawn(s: Routine, now: int, sample: seq<Word>): (r: Routine)
    ensures r.tab == s.tab
    ensures ValidRoutine(s) ==> ValidRoutine(r)
    ensures s.tab == 0 ==> r == s.(swap := 0)
    ensures s.tab == 1 ==> r.swap == 1
    ensures s.tab == 1 && s.swap == 0 ==>
      r.wordIndex == 0 && !r.help && r.begin == now && r.wordsSet == sample
    ensures s.tab == 1 && s.swap != 0 ==> r == s.(swap := 1)
  {
    if s.tab == 0 then
      s.(swap := 0)
    else if s.tab == 1 then
      var started := if s.swap == 0 then s.(begin := now, wordsSet := sample, wordIndex := 0, help := false) else s;
      started.(swap := 1)
    else
      s
  }

  /**
   * One iteration of the loop that `update` answers with `Continue`: the
   * learn state `update` leaves, then the `Continue` arm of the loop body.
   * On a loop state whose `swap` records the tab drawn last, entering tab 1
   * starts a fresh session and staying on it keeps the session.
   */
  function Iteration(s: Routine, recv: Option<Event>, env: Env): (r: Routine)
    ensures r.tab == LearnAfter(AsLearn(s), recv).tab
    ensures ValidRoutine(s) ==> ValidRoutine(r)
    ensures r.tab <= 1 ==> r.swap == r.tab
    ensures s.swap == s.tab == 0 && r.tab == 1 ==>
      r.wordIndex == 0 && !r.help && r.begin == env.now && r.wordsSet == env.sample
    ensures s.swap == s.tab == 1 && r.tab == 1 ==>
      r.begin == s.begin && r.wordsSet == s.wordsSet && s.wordIndex <= r.wordIndex
  {
    Redrawn(WithLearn(s, LearnAfter(AsLearn(s), recv)), env.now, env.sample)
  }

  /** The loop's state after iterations on `events`, with the clock and draw of each in `envs`. */
  function RoutineAfter(s: Routine, events: seq<Option<Event>>, envs: seq<Env>): Routine
    requires |events| == |envs|
  {
    if events == [] then s
    else Iteration(RoutineAfter(s, events[..|events| - 1], envs[..|envs| - 1]), events[|events| - 1], envs[|envs| - 1])
  }

  /**
   * The selection methods called while the loop handles `events`, in order:
   * each event calls the method its key is bound to on the tab it meets.
   */
  function RoutineMethods(s: Routine, events: seq<Option<Event>>, envs: seq<Env>): seq<SelMethod>
    requires |events| == |envs|
  {
    if events == [] then []
    else
      var m := UpdateMethod(RoutineAfter(s, events[..|events| - 1], envs[..|envs| - 1]).tab, events[|events| - 1]);
      RoutineMethods(s, events[..|events| - 1], envs[..|envs| - 1]) + (if m.Some? then [m.value] else [])
  }

  /** One more event: both folds take one step from the state the prefix leaves. */
  lemma RoutineUnfold(s: Routine, events: seq<Option<Event>>, envs: seq<Env>, k: nat)
    requires |events| == |envs| && k < |events|
    ensures var before := RoutineAfter(s, events[..k], envs[..k]);
      var m := UpdateMethod(before.tab, events[k]);
      && RoutineAfter(s, events[..k + 1], envs[..k + 1]) == Iteration(before, events[k], envs[k])
      && RoutineMethods(s, events[..k + 1], envs[..k + 1])
         == RoutineMethods(s, events[..k], envs[..k]) + (if m.Some? then [m.value] else [])
  {
    assert events[..k + 1][..k] == events[..k];
    assert envs[..k + 1][..k] == envs[..k];
  }

  /** Concatenation regroups: the step the call-log accounting needs. */
  lemma AppendAssoc<T>(a: seq<T>, b: seq<T>, c: seq<T>)
    ensures (a + b) + c == a + (b + c)
  {
  }

  /**
   * Iterations keep the loop state valid, and `swap` equal to the tab drawn
   * last, so every later entry into tab 1 starts a fresh session.
   */
  lemma {:induction false} RoutineAfterValid(s: Routine, events: seq<Option<Event>>, envs: seq<Env>)
    requires |events| == |envs|
    requires ValidRoutine(s) && s.swap == s.tab
    ensures var t := RoutineAfter(s, events, envs);
      ValidRoutine(t) && t.swap == t.tab
  {
    if events != [] {
      RoutineAfterValid(s, events[..|events| - 1], envs[..|envs| - 1]);
    }
  }

  /**
   * While the learn tab stays selected no new session starts: the timer and
   * the words are kept, the word index never goes back, and the selection
   * of the dictionary tab is not touched.
   */
  lemma {:induction false} StayingInLearnKeepsSession(s: Routine, events: seq<Option<Event>>, envs: seq<Env>)
    requires |events| == |envs|
    requires s.tab == 1 && s.swap == 1
    requires forall i :: 0 <= i < |events| ==> !IsKey(events[i], '1')
    ensures var t := RoutineAfter(s, events, envs);
      t.tab == 1 && t.swap == 1 && t.begin == s.begin && t.wordsSet == s.wordsSet && s.wordIndex <= t.wordIndex
    ensures RoutineMethods(s, events, envs) == []
  {
    if events != [] {
      StayingInLearnKeepsSession(s, events[..|events| - 1], envs[..|envs| - 1]);
    }
  }

  /** Leaving the learn tab with `1` and coming back with `2` starts a fresh session. */
  lemma ReentryStartsFreshSession(s: Routine, first: Env, second: Env)
    requires ValidRoutine(s) && s.tab == 1 && s.swap == 1
    ensures var back := Iteration(s, Some(Input(Char('1'))), first);
      var t := Iteration(back, Some(Input(Char('2'))), second);
      back.tab == 0 && back.swap == 0 &&
      t.tab == 1 && t.swap == 1 && t.wordIndex == 0 && !t.help && t.begin == second.now && t.wordsSet == second.sample
  {
  }

  /**
   * The word index is bounded by `WORDS_LEARN_SIZE`, not by the number of
   * words drawn: with fewer words in the vocabulary, `n` presses move it past
   * the last drawn word.
   */
  lemma IndexCanPassDrawnWords(s: Routine, allWords: seq<Word>, entry: Env)
    requires ValidRoutine(s) && s.tab == 1 && s.swap == 0
    requires IsSample(entry.sample, allWords) && |allWords| < WordsLearnSize
    ensures var t := Redrawn(s, entry.now, entry.sample);
      var l := NextPresses(AsLearn(t), WordsLearnSize - 1);
      ValidLearn(l) && l.wordIndex == WordsLearnSize - 1 && |t.wordsSet| <= l.wordIndex
  {
    var t := Redrawn(s, entry.now, entry.sample);
    NextPressesReachLast(AsLearn(t), WordsLearnSize - 1);
  }

  // ---------------------------------------------------------------------
  // The imperative dispatcher

  /** The `&mut` state of `tui_routine` and the handlers it calls. */
  class Tui {
    var tabIndex: nat
    var wordIndex: nat
    var help: bool
    var swap: nat
    var begin: int
    var wordsSet: seq<Word>
    const states: Selection
    const categories: seq<Category>
    const allWords: seq<Word>

    ghost predicate Valid()
      reads this
    {
      && ValidRoutine(View())
      && swap == tabIndex
      && (wordsSet == [] || IsSample(wordsSet, allWords))
    }

    function View(): Routine
      reads this
    {
      Routine(tabIndex, wordIndex, help, swap, begin, wordsSet)
    }

    function LearnView(): Learn
      reads this
    {
      Learn(tabIndex, wordIndex, help)
    }

    /** The initialisation at the top of `tui_routine`. */
    constructor (categories: seq<Category>, allWords: seq<Word>, now: int)
      ensures Valid() && View() == Routine(0, 0, false, 0, now, [])
      ensures this.categories == categories && this.allWords == allWords
      ensures fresh(states) && states.calls == []
    {
      this.categories, this.allWords := categories, allWords;
      states := new Selection(|categories|);
      tabIndex, swap, begin, wordsSet, wordIndex, help := 0, 0, now, [], 0, false;
    }

    /** `input_tab_one`: touches the tab index and the selection only. */
    method InputTabOne(key: Key) returns (r: Outcome<UpdateState>)
      modifies this`tabIndex, states
      ensures match BrowseKey(old(tabIndex), key, categories, old(states.categoryIndex))
        case Panicked(m) => r == Panicked(m) && tabIndex == old(tabIndex) && unchanged(states)
        case Done(b) =>
          && r == Done(b.state)
          && tabIndex == b.tab
          && (if b.call.Some? then states.calls == old(states.calls) + [b.call.value] else unchanged(states))
    {
      match key {
      case Char('2') =>
        tabIndex := 1;
      case Char('q') =>
        return Done(Stop);
      case Char('j') =>
        states.Down();
      case Char('k') =>
        states.Up();
      case Char('h') =>
        states.FocusLeft();
      case Char('l') =>
        var index := states.CategoryIndex();
        if index >= |categories| {
          return Panicked(IndexPanic);
        }
        states.FocusRight(|categories[index].words|);
      case _ =>
      }
      r := Done(Continue);
    }

    /** `input_tab_two`: touches the tab index, the word index and the help flag only. */
    method InputTabTwo(key: Key) returns (r: UpdateState)
      modifies this`tabIndex, this`wordIndex, this`help
      ensures (LearnView(), r) == LearnKey(old(LearnView()), key)
    {
      match key {
      case Char('1') =>
        tabIndex := 0;
      case Char('q') =>
        return Stop;
      case Char('n') =>
        if wordIndex < WordsLearnSize - 1 {
          wordIndex := wordIndex + 1;
          help := false;
        }
      case Char('h') =>
        help := !help;
      case _ =>
      }
      r := Continue;
    }

    /** `update`: receive one event and route a key press by tab index. */
    method Update(recv: Option<Event>) returns (r: Outcome<UpdateState>)
      modifies this`tabIndex, this`wordIndex, this`help, states
      ensures match UpdateStep(old(LearnView()), recv, categories, old(states.categoryIndex))
        case Panicked(m) => r == Panicked(m) && LearnView() == old(LearnView()) && unchanged(states)
        case Done(st) =>
          && r == Done(st.state)
          && LearnView() == st.learn
          && (if st.call.Some? then states.calls == old(states.calls) + [st.call.value] else unchanged(states))
      ensures r != Done(Continue) ==> unchanged(states)
      ensures r.Done? ==>
        var m := UpdateMethod(old(tabIndex), recv);
        MethodsOf(states.calls) == MethodsOf(old(states.calls)) + (if m.Some? then [m.value] else [])
    {
      ghost var step := UpdateStep(LearnView(), recv, categories, states.categoryIndex);
      ghost var log := states.calls;
      if step.Done? && step.value.call.Some? {
        MethodsOfAppend(log, step.value.call.value);
      }
      if recv.Some? && recv.value.Input? {
        var key := recv.value.key;
        if tabIndex == 0 {
          r := InputTabOne(key);
          return;
        } else if tabIndex == 1 {
          var state := InputTabTwo(key);
          return Done(state);
        } else {
          return Panicked(TabPanic);
        }
      }
      r := Done(Continue);
    }

    /** The `Continue` arm of the loop body, without the drawing. */
    method Redraw(now: int, sample: seq<Word>)
      modifies this`swap, this`begin, this`wordsSet, this`wordIndex, this`help
      ensures View() == Redrawn(old(View()), now, sample)
    {
      if tabIndex == 0 {
        swap := 0;
      } else if tabIndex == 1 {
        if swap == 0 {
          begin := now;
          wordsSet := sample;
          wordIndex := 0;
          help := false;
        }
        swap := 1;
      }
    }

    /**
     * One pass of the loop body: `update`, then on `Continue` the redraw.
     * A stop or a panic leaves the loop state as it was.
     */
    method Iterate(recv: Option<Event>, env: Env) returns (r: Outcome<UpdateState>)
      requires Valid()
      requires IsSample(env.sample, allWords)
      modifies this, states
      ensures Valid()
      ensures r.Panicked? ==> IsKey(recv, 'l') && r.message == IndexPanic
      ensures r.Done? && r.value == Stop <==> IsKey(recv, 'q')
      ensures View() == if r == Done(Continue) then Iteration(old(View()), recv, env) else old(View())
      ensures match UpdateStep(old(LearnView()), recv, categories, old(states.categoryIndex))
        case Panicked(_) => unchanged(states)
        case Done(st) => if st.call.Some? then states.calls == old(states.calls) + [st.call.value] else unchanged(states)
      ensures r != Done(Continue) ==> unchanged(states)
      ensures r.Done? ==>
        var m := UpdateMethod(old(tabIndex), recv);
        MethodsOf(states.calls) == MethodsOf(old(states.calls)) + (if m.Some? then [m.value] else [])
    {
      ghost var before := View();
      r := Update(recv);
      if r == Done(Continue) {
        assert View() == WithLearn(before, LearnAfter(AsLearn(before), recv));
        Redraw(env.now, env.sample);
      }
    }

    /**
     * Iteration `k` of the loop of `tui_routine`, with the loop state and the
     * selection's methods so far accounted for by the events before `k`.
     */
    method IterateAt(events: seq<Option<Event>>, envs: seq<Env>, k: nat, ghost start: Routine, ghost startCalls: seq<SelOp>)
      returns (r: Outcome<UpdateState>)
      requires Valid()
      requires |envs| == |events| && k < |events| && IsSample(envs[k].sample, allWords)
      requires View() == RoutineAfter(start, events[..k], envs[..k])
      requires MethodsOf(states.calls) == MethodsOf(startCalls) + RoutineMethods(start, events[..k], envs[..k])
      modifies this, states
      ensures Valid()
      ensures r.Panicked? ==> IsKey(events[k], 'l') && r.message == IndexPanic
      ensures r.Done? && r.value == Stop <==> IsKey(events[k], 'q')
      ensures r != Done(Continue) ==> View() == old(View()) && unchanged(states)
      ensures r == Done(Continue) ==>
        && View() == RoutineAfter(start, events[..k + 1], envs[..k + 1])
        && MethodsOf(states.calls) == MethodsOf(startCalls) + RoutineMethods(start, events[..k + 1], envs[..k + 1])
    {
      RoutineUnfold(start, events, envs, k);
      r := Iterate(events[k], envs[k]);
      if r == Done(Continue) {
        var m := UpdateMethod(old(tabIndex), events[k]);
        AppendAssoc(MethodsOf(startCalls), RoutineMethods(start, events[..k], envs[..k]), if m.Some? then [m.value] else []);
      }
    }

    /**
     * The loop of `tui_routine` over a finite list of received events, with
     * the clock reading and random draw of each iteration in `envs`. The tab
     * index stays 0 or 1, so only the index panic of key `l` can end it
     * besides `q`. `handled` counts the events answered `Continue`.
     */
    method TuiRoutine(events: seq<Option<Event>>, envs: seq<Env>) returns (handled: nat, end: LoopEnd)
      requires Valid()
      requires |envs| == |events|
      requires forall i :: 0 <= i < |envs| ==> IsSample(envs[i].sample, allWords)
      modifies this, states
      ensures Valid()
      ensures handled <= |events|
      ensures end == OutOfEvents ==> handled == |events|
      ensures end == Stopped ==> handled < |events| && IsKey(events[handled], 'q')
      ensures end.Panic? ==> handled < |events| && IsKey(events[handled], 'l') && end.message == IndexPanic
      ensures QuitFree(events[..handled])
      ensures View() == RoutineAfter(old(View()), events[..handled], envs[..handled])
      ensures MethodsOf(states.calls) == MethodsOf(old(states.calls)) + RoutineMethods(old(View()), events[..handled], envs[..handled])
    {
      handled, end := 0, OutOfEvents;
      while handled < |events|
        invariant handled <= |events|
        invariant Valid()
        invariant QuitFree(events[..handled])
        invariant View() == RoutineAfter(old(View()), events[..handled], envs[..handled])
        invariant MethodsOf(states.calls) == MethodsOf(old(states.calls)) + RoutineMethods(old(View()), events[..handled], envs[..handled])
      {
        var r := IterateAt(events, envs, handled, old(View()), old(states.calls));
        if r.Panicked? {
          return handled, Panic(r.message);
        } else if r.value == Stop {
          return handled, Stopped;
        }
        QuitFreeExtend(events, handled);
        handled := handled + 1;
      }
    }
  }
}
