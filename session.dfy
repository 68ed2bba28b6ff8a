/** The game session: whether the title demo is running, the level being played and
    the input sources replayed on it, driven by the lose, win, title-start and quit
    events. Every handler ends by loading the current level with its input list. */
module Session {

  /** The key frames a finished attempt hands over; their content is not examined here. */
  type Recording(==)

  /** An input source a level is loaded with. */
  datatype Input =
    | PlayerInput                     // the keyboard and gamepad
    | DemoReplay                      // the recorded title demo
    | Replay(recording: Recording)    // an earlier attempt played back as a ghost

  datatype Event = Lose(recording: Recording) | Win | Start | Quit

  datatype State = State(demo: bool, currentLevel: nat, replays: seq<Input>)

  /** One call of `load`: the level number it loads and the input list it is given. */
  datatype LoadCall = LoadCall(level: nat, inputs: seq<Input>)

  /** The title demo on level 0 with no replays yet. */
  const Initial: State := State(true, 0, [])

  /** The first load replays the demo recording on level 0. */
  const FirstLoad: LoadCall := LoadCall(0, [DemoReplay])

  /** The state after one event. Every event leaves an input list to load and keeps the
      invariant; a win raises the level by exactly one, start and quit put the session
      back on level 0 and a loss keeps the level. */
  function Handle(s: State, e: Event): (r: State)
    ensures |r.replays| >= 1
    ensures Inv(s) ==> Inv(r)
    ensures e.Win? ==> r.currentLevel == s.currentLevel + 1
    ensures (e.Start? || e.Quit?) ==> r.currentLevel == 0
    ensures e.Lose? ==> r.currentLevel == s.currentLevel
  {
    match e
    case Lose(rec) =>
      if !s.demo then s.(replays := s.replays + [Replay(rec)])
      else s.(replays := [Replay(rec)])
    case Win => s.(currentLevel := s.currentLevel + 1, replays := [PlayerInput])
    case Start => State(false, 0, [PlayerInput])
    case Quit => State(true, 0, [DemoReplay])
  }

  /** The load every handler ends with. */
  function LoadOf(s: State): LoadCall
  {
    LoadCall(s.currentLevel, s.replays)
  }

  /** The state after a run of events; the invariant holds after any run. */
  function RunEvents(s: State, es: seq<Event>): (r: State)
    ensures Inv(s) ==> Inv(r)
    decreases |es|
  {
    if es == [] then s else Handle(RunEvents(s, es[..|es| - 1]), es[|es| - 1])
  }

  /** The loads a run of events issues, one per event, none with an empty input list. */
  function LoadsOf(s: State, es: seq<Event>): (r: seq<LoadCall>)
    ensures |r| == |es|
    ensures forall i :: 0 <= i < |r| ==> r[i].inputs != []
    decreases |es|
  {
    if es == [] then [] else LoadsOf(s, es[..|es| - 1]) + [LoadOf(RunEvents(s, es))]
  }

  /** While a player plays, the player's own input comes first and the ghosts of the
      player's failed attempts follow; the demo plays at most one input source. */
  ghost predicate Inv(s: State)
  {
    (!s.demo ==> |s.replays| >= 1 && s.replays[0] == PlayerInput) &&
    (s.demo ==> |s.replays| <= 1)
  }

  lemma InitialInv()
    ensures Inv(Initial)
  {
  }

  /** One more event: its state follows the run so far, and it adds one load. */
  lemma RunEventsSnoc(s: State, es: seq<Event>, e: Event)
    ensures RunEvents(s, es + [e]) == Handle(RunEvents(s, es), e)
    ensures LoadsOf(s, es + [e]) == LoadsOf(s, es) + [LoadOf(Handle(RunEvents(s, es), e))]
  {
    assert (es + [e])[..|es|] == es;
  }

  /** The number of wins since the last Start or Quit. */
  function WinsSinceReset(es: seq<Event>): nat
  {
    if es == [] then 0
    else
      match es[|es| - 1]
      case Win => WinsSinceReset(es[..|es| - 1]) + 1
      case Start => 0
      case Quit => 0
      case Lose(_) => WinsSinceReset(es[..|es| - 1])
  }

  /** The level played is the number of wins since the session was last reset. */
  lemma {:induction false} LevelCountsWins(es: seq<Event>)
    ensures RunEvents(Initial, es).currentLevel == WinsSinceReset(es)
    decreases |es|
  {
    if es != [] {
      LevelCountsWins(es[..|es| - 1]);
    }
  }

  /** The replays of a run of losing attempts, in the order they were lost. */
  function Ghosts(es: seq<Event>): seq<Input>
  {
    if es == [] then []
    else Ghosts(es[..|es| - 1]) + (if es[|es| - 1].Lose? then [Replay(es[|es| - 1].recording)] else [])
  }

  /** After a title start, every lost attempt is kept as a ghost in the order it was lost,
      behind the player's own input, until the level is won or the player quits. */
  lemma {:induction false} LossesAccumulate(s: State, es: seq<Event>)
    requires forall i :: 0 <= i < |es| ==> es[i].Lose?
    ensures RunEvents(Handle(s, Start), es).replays == [PlayerInput] + Ghosts(es)
    ensures !RunEvents(Handle(s, Start), es).demo
    ensures RunEvents(Handle(s, Start), es).currentLevel == 0
    decreases |es|
  {
    if es != [] {
      LossesAccumulate(s, es[..|es| - 1]);
    }
  }

  /** In the demo a loss replaces the replay rather than adding to it. */
  lemma DemoLoseReplaces(s: State, rec: Recording)
    requires s.demo
    ensures Handle(s, Lose(rec)).replays == [Replay(rec)] && Handle(s, Lose(rec)).demo
  {
  }

  /** A win in the demo moves to the next level with the player's input while the
      session stays in demo mode. */
  lemma DemoWinHandsOver(s: State)
    requires s.demo
    ensures var t := Handle(s, Win);
            t.demo && t.replays == [PlayerInput] && t.currentLevel == s.currentLevel + 1
  {
  }

  /** The session closure: its three variables and the loads issued so far. `events`
      records the events handled since the session started. */
  class Session {
    var demo: bool
    var currentLevel: nat
    var replays: seq<Input>
    var loads: seq<LoadCall>
    ghost var events: seq<Event>

    function Current(): State
      reads this
    {
      State(demo, currentLevel, replays)
    }

    /** The variables are the state the recorded events lead to from the start, and the
        loads are the first load followed by one load per event. */
    ghost predicate Valid()
      reads this
    {
      Current() == RunEvents(Initial, events) &&
      loads == [FirstLoad] + LoadsOf(Initial, events)
    }

    /** Starting the session shows the title over the demo on level 0. */
    constructor ()
      ensures Valid() && events == []
      ensures Current() == Initial && Inv(Current())
      ensures loads == [FirstLoad]
    {
      demo := true;
      currentLevel := 0;
      replays := [];
      loads := [];
      events := [];
      new;
      Load([DemoReplay]);
    }

    /** Loads the current level with the given input list. */
    method Load(inputs: seq<Input>)
      modifies this`loads
      ensures loads == old(loads) + [LoadCall(currentLevel, inputs)]
    {
      loads := loads + [LoadCall(currentLevel, inputs)];
    }

    /** Records a handled event in the ghost history. */
    ghost method Record(e: Event)
      requires Current() == Handle(RunEvents(Initial, events), e)
      requires loads == [FirstLoad] + LoadsOf(Initial, events) + [LoadOf(Current())]
      modifies this`events
      ensures Valid() && events == old(events) + [e]
    {
      RunEventsSnoc(Initial, events, e);
      events := events + [e];
    }

    method OnLose(rec: Recording)
      requires Valid()
      modifies this`replays, this`loads, this`events
      ensures Valid() && events == old(events) + [Lose(rec)]
      ensures Current() == Handle(old(Current()), Lose(rec))
      ensures loads == old(loads) + [LoadOf(Current())]
    {
      if !demo {
        replays := replays + [Replay(rec)];
      } else {
        replays := [Replay(rec)];
      }
      Load(replays);
      Record(Lose(rec));
    }

    method OnWin()
      requires Valid()
      modifies this`currentLevel, this`replays, this`loads, this`events
      ensures Valid() && events == old(events) + [Win]
      ensures Current() == Handle(old(Current()), Win)
      ensures loads == old(loads) + [LoadOf(Current())]
    {
      currentLevel := currentLevel + 1;
      replays := [PlayerInput];
      Load(replays);
      Record(Win);
    }

    method OnStart()
      requires Valid()
      modifies this`demo, this`currentLevel, this`replays, this`loads, this`events
      ensures Valid() && events == old(events) + [Start]
      ensures Current() == Handle(old(Current()), Start)
      ensures loads == old(loads) + [LoadOf(Current())]
    {
      demo := false;
      currentLevel := 0;
      replays := [PlayerInput];
      Load(replays);
      Record(Start);
    }

    method OnQuit()
      requires Valid()
      modifies this`demo, this`currentLevel, this`replays, this`loads, this`events
      ensures Valid() && events == old(events) + [Quit]
      ensures Current() == Handle(old(Current()), Quit)
      ensures loads == old(loads) + [LoadOf(Current())]
    {
      demo := true;
      currentLevel := 0;
      replays := [DemoReplay];
      Load(replays);
      Record(Quit);
    }
  }
}
