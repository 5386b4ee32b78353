/**
 Sequences of user events played one after another against the application
 component, assuming each handler finishes before the next event starts:
 the state consistency every event keeps, the retry behaviour of the
 generating stages, and the walkthrough of a typical session.
 */
module Pipeline {
  import opened Types
  import opened Service
  import opened App

  /** One user action (or timer callback), with the reply the service gives
      to the call it triggers, if any. */
  datatype Event =
    | DetectTrendClicked(reply: Reply)
    | GeneratePostClicked(reply: Reply)
    | GenerateImageClicked(reply: Reply)
    | CopyClicked
    | CopyTimerFired
    | PublishClicked

  /** The stage handler of a generating stage. */
  function Handle(m: Model, s: Stage, reply: Reply): Reaction {
    match s
    case Trend => HandleDetectTrend(m, reply)
    case Post => HandleGeneratePost(m, reply)
    case Image => HandleGenerateImage(m, reply)
  }

  /** The complete effect of one event. */
  function Step(m: Model, e: Event): (r: Reaction)
    ensures Inv(m.app) ==> Inv(r.next.app)
    ensures Idle(m.loading) ==> Idle(r.next.loading)
  {
    match e
    case DetectTrendClicked(reply) => HandleDetectTrend(m, reply)
    case GeneratePostClicked(reply) => HandleGeneratePost(m, reply)
    case GenerateImageClicked(reply) => HandleGenerateImage(m, reply)
    case CopyClicked => HandleCopyToClipboard(m)
    case CopyTimerFired => Reaction(CopyResetElapsed(m), [])
    case PublishClicked => HandlePublish(m)
  }

  /** The state after the events, in order. */
  function Run(m: Model, es: seq<Event>): (r: Model)
    ensures Inv(m.app) ==> Inv(r.app)
    ensures Idle(m.loading) ==> Idle(r.loading)
    decreases |es|
  {
    if es == [] then m else Run(Step(m, es[0]).next, es[1..])
  }

  /** Every state between completed events, reached by serial events from the
      initial one, is consistent and idle. */
  lemma ReachableStatesAreConsistent(es: seq<Event>)
    ensures Inv(Run(Init(), es).app)
    ensures Idle(Run(Init(), es).loading)
  {
  }

  /** The state after `n` failed runs of stage `s` in a row. */
  function Failures(m: Model, s: Stage, n: nat): Model
    decreases n
  {
    if n == 0 then m else Failures(Handle(m, s, Failed).next, s, n - 1)
  }

  /** A failed run followed by a successful one ends where the successful
      run alone would, and issues the same service request. */
  lemma FailedRunForgotten(m: Model, s: Stage, v: string)
    ensures Handle(Handle(m, s, Failed).next, s, Ok(v)) == Handle(m, s, Ok(v))
  {
  }

  /** Failing twice is the same as failing once. */
  lemma FailureIdempotent(m: Model, s: Stage)
    ensures Handle(Handle(m, s, Failed).next, s, Failed) == Handle(m, s, Failed)
  {
  }

  /** Any number of failed runs before a successful one leave no trace. */
  lemma {:induction false} RetryForgetsFailures(m: Model, s: Stage, n: nat, v: string)
    ensures Handle(Failures(m, s, n), s, Ok(v)) == Handle(m, s, Ok(v))
    decreases n
  {
    if n > 0 {
      var m1 := Handle(m, s, Failed).next;
      RetryForgetsFailures(m1, s, n - 1, v);
      FailedRunForgotten(m, s, v);
    }
  }

  /** A trend the service returns as the empty string is stored and moves the
      pipeline to step 2, yet counts as absent: the post button stays
      disabled and generate-post does nothing whatever the service would say. */
  lemma EmptyTrendStallsPipeline(m: Model, reply: Reply)
    ensures var m1 := HandleDetectTrend(m, Ok("")).next;
      && m1.app.trend == Some("")
      && m1.app.step == 2
      && !PostEnabled(m1)
      && HandleGeneratePost(m1, reply) == Reaction(m1, [])
  {
  }

  /** A session: a trend is found, a post written, the first image attempt
      fails and the retry succeeds. */
  lemma Walkthrough(post: string, image: string)
    requires post != ""
    ensures
      var m1 := Step(Init(), DetectTrendClicked(Ok("AI Agents in 2025"))).next;
      var m2 := Step(m1, GeneratePostClicked(Ok(post))).next;
      var m3 := Step(m2, GenerateImageClicked(Failed)).next;
      var m4 := Step(m3, GenerateImageClicked(Ok(image))).next;
      && m1.app.trend == Some("AI Agents in 2025") && m1.app.step == 2 && m1.app.post == None
      && m2.app.post == Some(post) && m2.app.step == 3
      && m3.app.error == Some(GenerateImageError)
      && m3.app.post == Some(post) && m3.app.imageUrl == None && m3.app.step == 3
      && m4.app.imageUrl == Some(image) && m4.app.step == 4 && m4.app.error == None
      && Idle(m4.loading)
  {
  }
}
