/**
 The application component: its initial state, the three generating handlers,
 the copy and publish intents, and the predicates that enable its buttons.

 Every generating handler runs the same protocol, modelled here as three
 phases over one stage:
   Begin   — raise the stage's busy flag, clear the error and every result from
             this stage on;
   Settle  — store the service's reply and advance `step`, or record the
             stage's fixed error message;
   Release — the `finally` block: lower the busy flag whatever happened.
 Handlers are assumed not to overlap, so the state each phase sees is the one
 the previous phase left, and the argument a handler passes to the service is
 the upstream result held when it started.
 */
module App {
  import opened Types
  import opened Service

  const DetectTrendError := "Failed to detect trend. Please try again."
  const GeneratePostError := "Failed to generate post. Please try again."
  const GenerateImageError := "Failed to generate image. Please try again."

  /** Both records of the component. */
  datatype Model = Model(app: AppState, loading: LoadingState)

  /** What a handler asks of the outside world. */
  datatype Effect =
    | Request(call: Call)
    | WriteClipboard(text: string)
    | ScheduleCopyReset
    | ShowPublishNotice

  /** The state a handler leaves behind and the effects it issued. */
  datatype Reaction = Reaction(next: Model, effects: seq<Effect>)

  /** The state the component is mounted with. */
  function Init(): (r: Model)
    ensures forall s :: Output(r.app, s) == None
    ensures r.app.error == None && r.app.step == 1 && !r.app.copied
    ensures Idle(r.loading)
    ensures Inv(r.app)
  {
    Model(AppState(None, None, None, None, 1, false), LoadingState(false, false, false))
  }

  /** The message a failed stage shows. */
  function ErrorMessage(s: Stage): string {
    match s
    case Trend => DetectTrendError
    case Post => GeneratePostError
    case Image => GenerateImageError
  }

  /** Begin phase: busy flag up, error and this stage's and later results
      cleared; detect-trend also puts the pipeline back at step 1. */
  function Begin(m: Model, s: Stage): (r: Model)
    ensures Busy(r.loading, s)
    ensures forall t :: t != s ==> Busy(r.loading, t) == Busy(m.loading, t)
    ensures r.app.error == None && r.app.copied == m.app.copied
    ensures forall t :: StageNumber(t) >= StageNumber(s) ==> Output(r.app, t) == None
    ensures forall t :: StageNumber(t) < StageNumber(s) ==> Output(r.app, t) == Output(m.app, t)
    ensures r.app.step == (if s == Trend then 1 else m.app.step)
    ensures Inv(m.app) ==> Inv(r.app)
  {
    var a := m.app;
    var cleared :=
      match s
      case Trend => a.(error := None, trend := None, post := None, imageUrl := None, step := 1)
      case Post => a.(error := None, post := None, imageUrl := None)
      case Image => a.(error := None, imageUrl := None);
    Model(cleared, SetBusy(m.loading, s, true))
  }

  /** Settle phase: the service's reply lands in the stage's result and moves
      `step` just past the stage, or its failure sets the stage's message. */
  function Settle(m: Model, s: Stage, reply: Reply): (r: Model)
    ensures r.loading == m.loading && r.app.copied == m.app.copied
    ensures forall t :: t != s ==> Output(r.app, t) == Output(m.app, t)
    ensures reply.Ok? ==>
      && Output(r.app, s) == Some(reply.value)
      && r.app.step == StageNumber(s) + 1
      && r.app.error == m.app.error
    ensures reply.Failed? ==>
      && Output(r.app, s) == Output(m.app, s)
      && r.app.step == m.app.step
      && r.app.error == Some(ErrorMessage(s))
  {
    match reply
    case Ok(v) =>
      var a :=
        match s
        case Trend => m.app.(trend := Some(v), step := 2)
        case Post => m.app.(post := Some(v), step := 3)
        case Image => m.app.(imageUrl := Some(v), step := 4);
      m.(app := a)
    case Failed =>
      m.(app := m.app.(error := Some(ErrorMessage(s))))
  }

  /** Release phase: the `finally` block lowers the stage's flag only. */
  function Release(m: Model, s: Stage): (r: Model)
    ensures !Busy(r.loading, s)
    ensures forall t :: t != s ==> Busy(r.loading, t) == Busy(m.loading, t)
    ensures r.app == m.app
  {
    m.(loading := SetBusy(m.loading, s, false))
  }

  /** One complete run of a stage whose gate has passed. */
  function Execute(m: Model, s: Stage, reply: Reply): Model {
    Release(Settle(Begin(m, s), s, reply), s)
  }

  /** `handleDetectTrend`: no gate; always resets the pipeline first. */
  function HandleDetectTrend(m: Model, reply: Reply): (r: Reaction)
    ensures r.effects == [Request(DetectTrend)]
    ensures !r.next.loading.trend
    ensures r.next.loading.post == m.loading.post && r.next.loading.image == m.loading.image
    ensures r.next.app.copied == m.app.copied
    ensures r.next.app.post == None && r.next.app.imageUrl == None
    ensures reply.Ok? ==>
      && r.next.app.trend == Some(reply.value)
      && r.next.app.step == 2
      && r.next.app.error == None
    ensures reply.Failed? ==>
      && r.next.app.trend == None
      && r.next.app.step == 1
      && r.next.app.error == Some(DetectTrendError)
    ensures Inv(r.next.app)
  {
    Reaction(Execute(m, Trend, reply), [Request(DetectTrend)])
  }

  /** `handleGeneratePost`: does nothing unless a (non-empty) trend is held. */
  function HandleGeneratePost(m: Model, reply: Reply): (r: Reaction)
    ensures !Truthy(m.app.trend) ==> r == Reaction(m, [])
    ensures Truthy(m.app.trend) ==>
      && r.effects == [Request(GeneratePost(m.app.trend.value))]
      && !r.next.loading.post
      && r.next.loading.trend == m.loading.trend && r.next.loading.image == m.loading.image
      && r.next.app.trend == m.app.trend
      && r.next.app.copied == m.app.copied
      && r.next.app.imageUrl == None
    ensures Truthy(m.app.trend) && reply.Ok? ==>
      && r.next.app.post == Some(reply.value)
      && r.next.app.step == 3
      && r.next.app.error == None
    ensures Truthy(m.app.trend) && reply.Failed? ==>
      && r.next.app.post == None
      && r.next.app.step == m.app.step
      && r.next.app.error == Some(GeneratePostError)
    ensures Inv(m.app) ==> Inv(r.next.app)
  {
    if !Truthy(m.app.trend) then Reaction(m, [])
    else Reaction(Execute(m, Post, reply), [Request(GeneratePost(m.app.trend.value))])
  }

  /** `handleGenerateImage`: does nothing unless a (non-empty) post is held. */
  function HandleGenerateImage(m: Model, reply: Reply): (r: Reaction)
    ensures !Truthy(m.app.post) ==> r == Reaction(m, [])
    ensures Truthy(m.app.post) ==>
      && r.effects == [Request(GenerateImage(m.app.post.value))]
      && !r.next.loading.image
      && r.next.loading.trend == m.loading.trend && r.next.loading.post == m.loading.post
      && r.next.app.trend == m.app.trend
      && r.next.app.post == m.app.post
      && r.next.app.copied == m.app.copied
    ensures Truthy(m.app.post) && reply.Ok? ==>
      && r.next.app.imageUrl == Some(reply.value)
      && r.next.app.step == 4
      && r.next.app.error == None
    ensures Truthy(m.app.post) && reply.Failed? ==>
      && r.next.app.imageUrl == None
      && r.next.app.step == m.app.step
      && r.next.app.error == Some(GenerateImageError)
    ensures Inv(m.app) ==> Inv(r.next.app)
  {
    if !Truthy(m.app.post) then Reaction(m, [])
    else Reaction(Execute(m, Image, reply), [Request(GenerateImage(m.app.post.value))])
  }

  /** Two states that agree on everything except, possibly, `copied`. */
  predicate SameButCopied(m: Model, m': Model) {
    m.loading == m'.loading && m.app.(copied := m'.app.copied) == m'.app
  }

  /** `handleCopyToClipboard`: with a post held, write it to the clipboard,
      show the acknowledgement and schedule its reset. */
  function HandleCopyToClipboard(m: Model): (r: Reaction)
    ensures !Truthy(m.app.post) ==> r == Reaction(m, [])
    ensures Truthy(m.app.post) ==>
      && r.next.app.copied
      && SameButCopied(m, r.next)
      && r.effects == [WriteClipboard(m.app.post.value), ScheduleCopyReset]
  {
    if Truthy(m.app.post) then
      Reaction(m.(app := m.app.(copied := true)), [WriteClipboard(m.app.post.value), ScheduleCopyReset])
    else
      Reaction(m, [])
  }

  /** The timer callback scheduled by a copy: hide the acknowledgement. */
  function CopyResetElapsed(m: Model): (r: Model)
    ensures !r.app.copied
    ensures SameButCopied(m, r)
  {
    m.(app := m.app.(copied := false))
  }

  /** `handlePublish`: a notice to the user and nothing else. */
  function HandlePublish(m: Model): (r: Reaction)
    ensures r.next == m
    ensures r.effects == [ShowPublishNotice]
  {
    Reaction(m, [ShowPublishNotice])
  }

  /** Whether the "Find Trend" button can be clicked. */
  predicate DetectEnabled(m: Model) {
    !m.loading.trend
  }

  /** Whether the "Generate Post" button can be clicked. */
  predicate PostEnabled(m: Model) {
    !(!Truthy(m.app.trend) || m.loading.post || m.app.step < 2)
  }

  /** Whether the "Create Image" button can be clicked. */
  predicate ImageEnabled(m: Model) {
    !(!Truthy(m.app.post) || m.loading.image || m.app.step < 3)
  }

  /** Whether the "Publish" button can be clicked. */
  predicate PublishEnabled(m: Model) {
    !(!Truthy(m.app.imageUrl) || m.app.step < 4)
  }

  /** Between handlers, the `step` tests on the buttons add nothing to the
      handlers' own gates: each button is enabled exactly when its handler
      would act. */
  lemma ButtonsMatchGates(m: Model)
    requires Inv(m.app) && Idle(m.loading)
    ensures DetectEnabled(m)
    ensures PostEnabled(m) <==> Truthy(m.app.trend)
    ensures ImageEnabled(m) <==> Truthy(m.app.post)
    ensures PublishEnabled(m) <==> Truthy(m.app.imageUrl)
  {
  }

  /** An enabled publish button means every stage has produced its result. */
  lemma PublishMeansComplete(m: Model)
    requires Inv(m.app)
    requires PublishEnabled(m)
    ensures m.app.trend.Some? && m.app.post.Some? && m.app.imageUrl.Some?
    ensures m.app.step == 4
  {
  }

  /** Copying and then letting the timer fire restores the state (the
      acknowledgement was off before). */
  lemma CopyThenResetRestores(m: Model)
    requires !m.app.copied
    ensures CopyResetElapsed(HandleCopyToClipboard(m).next) == m
  {
  }
}
