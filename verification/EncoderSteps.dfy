/** One operation of a stream encoder: the state it leaves and the events it returns. */
module EncoderSteps {
  import opened Wrappers
  import opened StreamChunks

  // The state an operation leaves, also when it fails part way, and the events it returns.
  datatype Step<S, E> = Step(state: S, result: Result<seq<E>, EncodeError>)

  // Runs `next` after a step that succeeded, putting the events together.
  function After<S, E>(first: Step<S, E>, next: Step<S, E>): Step<S, E> {
    match (first.result, next.result)
    case (Err(_), _) => first
    case (_, Err(_)) => next
    case (Ok(xs), Ok(ys)) => Step(next.state, Ok(xs + ys))
  }

  lemma AfterAssociative<S, E>(a: S, xs: seq<E>, b: S, ys: seq<E>, z: Step<S, E>)
    ensures After(Step(a, Ok(xs)), After(Step(b, Ok(ys)), z)) == After(Step(b, Ok(xs + ys)), z)
  {
    if z.result.Ok? {
      assert xs + (ys + z.result.value) == (xs + ys) + z.result.value;
    }
  }
}
