/** Shared vocabulary: optional values, the exceptions the pipeline raises or
    catches, and a failure-compatible Result for them. */
module Base {

  datatype Option<T> = None | Some(value: T)

  /** A location relative to the workspace root, one component per entry
      (`["canonical", "abc.json"]` stands for `<workspace>/canonical/abc.json`). */
  type Path = seq<string>

  /** The exceptions the pipeline can raise, named after their Python originals. */
  datatype Exc =
    | NoApiKeys                 // Exception("No API keys available.")
    | ContentExhausted          // Exception("Failed to generate content after retries.")
    | AudioExhausted            // Exception("Failed to generate audio after retries.")
    | RemoteError(message: string)  // any non-quota failure reported by the generative service
    | NameError(name: string)   // a read of an undefined name
    | JsonDecodeError           // json.loads / json.load on text that is not JSON
    | KeyError(key: string)     // d[key] on a dict without that key
    | TypeError                 // an operation applied to a value of the wrong JSON kind
    | AttributeError            // .get on a value that is not a dict
    | ValueError(message: string)
    | OSError(path: Path)       // a file-system call that fails on that path
    | DbError(postId: string)   // an sqlite statement that fails for that row
    | FetchError(message: string)   // a failure reported by the content source
    | EncoderMissing            // the ffmpeg executable cannot be started

  datatype Result<T> = Ok(value: T) | Err(error: Exc) {
    predicate IsFailure() { Err? }
    function PropagateFailure<U>(): Result<U>
      requires Err?
    {
      Err(error)
    }
    function Extract(): T
      requires Ok?
    {
      value
    }
  }

  /** A loop that applies `f` to each element in order and raises the first
      exception it meets. */
  function MapAll<A, B>(xs: seq<A>, f: A -> Result<B>): (r: Result<seq<B>>)
    ensures r.Ok? <==> forall i :: 0 <= i < |xs| ==> f(xs[i]).Ok?
    ensures r.Ok? ==> |r.value| == |xs| && forall i :: 0 <= i < |xs| ==> r.value[i] == f(xs[i]).value
    ensures r.Err? ==> exists i :: 0 <= i < |xs| && f(xs[i]) == Err(r.error) && forall j :: 0 <= j < i ==> f(xs[j]).Ok?
    decreases |xs|
  {
    if xs == [] then Ok([])
    else
      var init := xs[..|xs| - 1];
      assert forall i :: 0 <= i < |init| ==> init[i] == xs[i];
      match MapAll(init, f)
      case Err(e) => Err(e)
      case Ok(ys) =>
        match f(xs[|xs| - 1])
        case Err(e) => Err(e)
        case Ok(y) => Ok(ys + [y])
  }

  /** Running three pieces together does not depend on grouping. */
  lemma ConcatAssoc<T>(a: seq<T>, b: seq<T>, c: seq<T>)
    ensures a + b + c == a + (b + c)
  {
  }

  /** The pieces run together in order. */
  function Flatten<T>(xss: seq<seq<T>>): seq<T>
    decreases |xss|
  {
    if xss == [] then [] else Flatten(xss[..|xss| - 1]) + xss[|xss| - 1]
  }
}
