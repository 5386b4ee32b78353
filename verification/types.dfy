/**
 The two records the application keeps: the pipeline's results (AppState) and
 one busy flag per generating stage (LoadingState), plus the JavaScript notion
 of a "present" string that the handlers and buttons test.
 */
module Types {

  /** A `string | null` field. */
  datatype Option<+T> = None | Some(value: T)

  /** JavaScript truthiness of a `string | null` value: both `null` and the
      empty string are falsy, so `if (!x) return;` also stops on "". */
  predicate Truthy(o: Option<string>) {
    o.Some? && o.value != ""
  }

  /** The pipeline's results, its position and the transient copy feedback. */
  datatype AppState = AppState(
    trend: Option<string>,
    post: Option<string>,
    imageUrl: Option<string>,
    error: Option<string>,
    step: int,
    copied: bool
  )

  /** One independent busy flag per generating stage. */
  datatype LoadingState = LoadingState(trend: bool, post: bool, image: bool)

  /** The three generating stages, named after their loading flags. */
  datatype Stage = Trend | Post | Image

  /** The stage's position in the pipeline (publish is stage 4). */
  function StageNumber(s: Stage): (n: int)
    ensures 1 <= n <= 3
  {
    match s
    case Trend => 1
    case Post => 2
    case Image => 3
  }

  /** The result field a stage fills in. */
  function Output(a: AppState, s: Stage): Option<string> {
    match s
    case Trend => a.trend
    case Post => a.post
    case Image => a.imageUrl
  }

  /** The busy flag of a stage. */
  function Busy(l: LoadingState, s: Stage): bool {
    match s
    case Trend => l.trend
    case Post => l.post
    case Image => l.image
  }

  /** The flag record with one stage's flag set to `v`. */
  function SetBusy(l: LoadingState, s: Stage, v: bool): (r: LoadingState)
    ensures Busy(r, s) == v
    ensures forall t :: t != s ==> Busy(r, t) == Busy(l, t)
  {
    match s
    case Trend => l.(trend := v)
    case Post => l.(post := v)
    case Image => l.(image := v)
  }

  /** No stage is in flight. */
  predicate Idle(l: LoadingState) {
    !l.trend && !l.post && !l.image
  }

  /** The data dependencies between results and the pipeline position. */
  predicate Inv(a: AppState) {
    && 1 <= a.step <= 4
    && (a.post.Some? ==> a.trend.Some?)
    && (a.imageUrl.Some? ==> a.post.Some?)
    && (a.trend.Some? ==> a.step >= 2)
    && (a.post.Some? ==> a.step >= 3)
    && (a.imageUrl.Some? ==> a.step == 4)
  }
}
