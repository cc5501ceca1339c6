/** The listener inside the event log is the listener of module Listener: whatever
    happens around it, it has received a conforming sequence of answers and stands
    where its loops leave it. So what is proved of those loops holds in every run. */
module ListenerRuns {
  import opened Prelude
  import opened EventLog
  import Listener

  /** The answer a step gives to the listener, if it gives one. */
  ghost function AnswerTo(w: World, s: Step): Option<Listener.Answer>
    requires Enabled(w, s)
  {
    match s
    case Connect => Some(Listener.Connected)
    case ConnectFails => Some(Listener.ConnectFailed)
    case ReceiveFails => Some(Listener.ReceiveFailed)
    case ShutDown => Some(Listener.ShutdownRequested)
    case FetchFails => Some(Listener.PageFailed)
    case LookupFails => Some(Listener.Notified(Listener.LookupFailed))
    case TakeMalformed => Some(Listener.Notified(Listener.BadPayload))
    case Deliver => Some(AnswerOf(w.reply))
    case _ => None
  }

  ghost function AnswersOf(w: World, steps: seq<Step>): seq<Listener.Answer>
    requires CanRun(w, steps)
  {
    if steps == [] then []
    else
      var n := |steps| - 1;
      match AnswerTo(RunOf(w, steps[..n]), steps[n])
      case Some(a) => AnswersOf(w, steps[..n]) + [a]
      case None => AnswersOf(w, steps[..n])
  }

  lemma StepReacts(w: World, s: Step)
    requires Enabled(w, s)
    ensures match AnswerTo(w, s)
            case Some(a) => Listener.Expects(w.l.phase, a) && Apply(w, s).l == Listener.React(w.l, a)
            case None => Apply(w, s).l == w.l
  {
  }

  /** In every run the listener has received a conforming sequence of answers, one for
      each step that concerns it, and is where its own loops would be after them. */
  lemma {:induction false} ListenerFollows(w0: World, steps: seq<Step>)
    requires Init(w0) && CanRun(w0, steps)
    ensures Listener.Conforms(Listener.START, AnswersOf(w0, steps))
    ensures RunOf(w0, steps).l == Listener.After(Listener.START, AnswersOf(w0, steps))
    decreases |steps|
  {
    hide Enabled, Apply, AnswerTo, Listener.Expects, Listener.React;
    if steps == [] {
    } else {
      var n := |steps| - 1;
      ListenerFollows(w0, steps[..n]);
      StepReacts(RunOf(w0, steps[..n]), steps[n]);
      if AnswerTo(RunOf(w0, steps[..n]), steps[n]).Some? {
        var before, a := AnswersOf(w0, steps[..n]), AnswerTo(RunOf(w0, steps[..n]), steps[n]).value;
        assert (before + [a])[..|before|] == before;
      }
    }
  }

  /** The replies in flight are answers of the database: a page comes from a fetch and a
      lookup from a notification taken, and nothing else replies. */
  lemma RepliesComeFromQueries(w: World, s: Step)
    requires Enabled(w, s)
    ensures Apply(w, s).reply ==
            match s
            case FetchPage(rows) => PageReply(rows)
            case TakeNote(lookup) => LookupReply(w.queue[0].at, lookup)
            case Deliver => NoReply
            case _ => w.reply
  {
  }
}
