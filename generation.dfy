/** The token loop of `NativeRuntime::generate` (native_runtime.rs:250-287).
    Sampling and decoding are done by llama.cpp; here they are an oracle
    that says, for each iteration, which token came out. */
module Generation {
  import opened Wrappers
  import opened Text

  /** What happens after a piece has been appended and no stop sequence
      matched: the token is fed back (`batch.add`, then `ctx.decode`). */
  datatype Advance = Advanced | BatchAddFailed(addError: string) | DecodeFailed(decodeError: string)

  /** The token sampled in one iteration: end of generation, or a token
      whose text is `piece` (or the error of `token_to_piece`) followed by
      the outcome of feeding it back. */
  datatype Sampled = EndOfGeneration | Token(piece: Result<string, string>, advance: Advance)

  /** The oracle: the token sampled in iteration `i`. */
  type Sampler = nat -> Sampled

  const DEFAULT_MAX_TOKENS: nat := 512

  /** The first stop sequence, in list order, that the output ends with
      (`stops.iter().find(|s| output.ends_with(s))`). */
  function FirstStop(stops: seq<string>, output: string): (r: Option<string>)
    ensures r.Some? ==>
              exists k | 0 <= k < |stops| ::
                stops[k] == r.value && EndsWith(output, r.value) &&
                forall j | 0 <= j < k :: !EndsWith(output, stops[j])
    ensures r.None? <==> forall k | 0 <= k < |stops| :: !EndsWith(output, stops[k])
  {
    if stops == [] then None
    else if EndsWith(output, stops[0]) then Some(stops[0])
    else
      var rest := FirstStop(stops[1..], output);
      assert forall k | 1 <= k < |stops| :: stops[k] == stops[1..][k - 1];
      rest
  }

  /** The stop check on an optional list: no list never stops. */
  function StopFor(stops: Option<seq<string>>, output: string): Option<string> {
    match stops
    case None => None
    case Some(list) => FirstStop(list, output)
  }

  /** The text and token count the loop ends with, from iteration `i` with
      `output` and `count` so far; or the error that ends `generate`. */
  function Run(maxTokens: nat, stops: Option<seq<string>>, sample: Sampler,
               i: nat, output: string, count: nat): Result<(string, nat), string>
    requires i <= maxTokens
    decreases maxTokens - i
  {
    if i == maxTokens then Ok((output, count))
    else match sample(i)
      case EndOfGeneration => Ok((output, count))
      case Token(piece, advance) =>
        match piece
        case Err(e) => Err("Token decode failed: " + e)
        case Ok(text) =>
          var extended := output + text;
          match StopFor(stops, extended)
          case Some(stop) => Ok((extended[..|extended| - |stop|], count + 1))
          case None =>
            match advance
            case Advanced => Run(maxTokens, stops, sample, i + 1, extended, count + 1)
            case BatchAddFailed(e) => Err("Batch add failed: " + e)
            case DecodeFailed(e) => Err("Decode failed: " + e)
  }

  /** The whole loop: from iteration 0 with empty output. */
  function Generate(maxTokens: nat, stops: Option<seq<string>>, sample: Sampler): Result<(string, nat), string> {
    Run(maxTokens, stops, sample, 0, "", 0)
  }

  /** The loop as the source runs it: a `for` over at most `maxTokens`
      iterations that appends pieces, counts them, and truncates the output
      at the first matching stop sequence. */
  method GenerateLoop(maxTokens: nat, stops: Option<seq<string>>, sample: Sampler)
    returns (r: Result<(string, nat), string>)
    ensures r == Generate(maxTokens, stops, sample)
  {
    var output := "";
    var count := 0;
    var i := 0;
    while i < maxTokens
      invariant i <= maxTokens
      invariant Run(maxTokens, stops, sample, i, output, count) == Generate(maxTokens, stops, sample)
    {
      var token := sample(i);
      if token.EndOfGeneration? {
        break;
      }
      if token.piece.Err? {
        return Err("Token decode failed: " + token.piece.error);
      }
      output := output + token.piece.value;
      count := count + 1;
      var stop := StopFor(stops, output);
      if stop.Some? {
        output := output[..|output| - |stop.value|];
        return Ok((output, count));
      }
      match token.advance {
        case BatchAddFailed(e) => return Err("Batch add failed: " + e);
        case DecodeFailed(e) => return Err("Decode failed: " + e);
        case Advanced =>
      }
      i := i + 1;
    }
    return Ok((output, count));
  }

  // ---------------------------------------------------------------------
  // What the loop promises
  // ---------------------------------------------------------------------

  /** The concatenated pieces of iterations `i` to `j - 1`, all of which
      are tokens whose text decoded. */
  ghost predicate Decoded(sample: Sampler, i: nat, j: nat) {
    forall k | i <= k < j :: sample(k).Token? && sample(k).piece.Ok?
  }

  ghost function Pieces(sample: Sampler, i: nat, j: nat): string
    requires i <= j && Decoded(sample, i, j)
    decreases j - i
  {
    if i == j then "" else sample(i).piece.value + Pieces(sample, i + 1, j)
  }

  /** The output after iterations `i` to `j - 1`, starting from `output`. */
  ghost function Emitted(sample: Sampler, output: string, i: nat, j: nat): string
    requires i <= j && Decoded(sample, i, j)
  {
    output + Pieces(sample, i, j)
  }

  /** The output after one more piece, seen from either end. */
  lemma EmittedStep(sample: Sampler, output: string, i: nat, j: nat)
    requires i < j && Decoded(sample, i, j)
    ensures Emitted(sample, output, i, j) == Emitted(sample, output + sample(i).piece.value, i + 1, j)
  {
  }

  /** No piece before the `n`-th from iteration `i` completed a stop sequence. */
  ghost predicate NoEarlierStop(stops: Option<seq<string>>, sample: Sampler, output: string, i: nat, n: nat)
    requires Decoded(sample, i, i + n)
  {
    forall j | i < j < i + n :: StopFor(stops, Emitted(sample, output, i, j)).None?
  }

  /** The tokens of iterations `i` to `j - 1` were all fed back. */
  ghost predicate FedBack(sample: Sampler, i: nat, j: nat) {
    forall k | i <= k < j :: sample(k).Token? && sample(k).advance.Advanced?
  }

  /** How a run from iteration `i` with `output` so far can end with `text`
      after `n` more counted tokens: the `n` tokens all decoded, none but
      possibly the last completed a stop sequence, and either
      - no stop sequence matched, every token was fed back, and the loop
        then ran out of iterations or met an end-of-generation token, with
        the text the output plus all the pieces; or
      - all tokens but the last were fed back, the last piece made the
        text end with a stop sequence, the first in list order, and
        exactly that suffix was cut off. */
  ghost predicate Explains(maxTokens: nat, stops: Option<seq<string>>, sample: Sampler,
                           i: nat, output: string, text: string, n: nat)
  {
    && i + n <= maxTokens
    && Decoded(sample, i, i + n)
    && NoEarlierStop(stops, sample, output, i, n)
    && var full := Emitted(sample, output, i, i + n);
       || (&& text == full
           && (n > 0 ==> StopFor(stops, full).None?)
           && FedBack(sample, i, i + n)
           && (i + n == maxTokens || sample(i + n).EndOfGeneration?))
       || (&& n > 0
           && FedBack(sample, i, i + n - 1)
           && StopFor(stops, full).Some?
           && text + StopFor(stops, full).value == full)
  }

  /** Seen from one iteration later: no earlier stop after the first
      piece `t` is no stop at `t` (unless it is the last piece) and no
      earlier stop in the rest. */
  lemma NoEarlierStopStep(stops: Option<seq<string>>, sample: Sampler, output: string, i: nat, n: nat)
    requires n > 0 && Decoded(sample, i, i + n)
    ensures var t := sample(i).piece.value;
            NoEarlierStop(stops, sample, output, i, n) <==>
              && (n > 1 ==> StopFor(stops, output + t).None?)
              && NoEarlierStop(stops, sample, output + t, i + 1, n - 1)
  {
    var t := sample(i).piece.value;
    var next := i + 1;
    forall j | i < j <= i + n
      ensures Emitted(sample, output, i, j) == Emitted(sample, output + t, next, j)
    {
      EmittedStep(sample, output, i, j);
    }
    assert Emitted(sample, output + t, next, next) == output + t;
    if NoEarlierStop(stops, sample, output, i, n) {
      if n > 1 {
        assert StopFor(stops, Emitted(sample, output, i, next)).None?;
      }
      forall j | next < j < i + n
        ensures StopFor(stops, Emitted(sample, output + t, next, j)).None?
      {
        assert StopFor(stops, Emitted(sample, output, i, j)).None?;
      }
    }
    if (n > 1 ==> StopFor(stops, output + t).None?) && NoEarlierStop(stops, sample, output + t, next, n - 1) {
      forall j | i < j < i + n
        ensures StopFor(stops, Emitted(sample, output, i, j)).None?
      {
        if j > next {
          assert StopFor(stops, Emitted(sample, output + t, next, j)).None?;
        }
      }
    }
  }

  /** A piece that completes a stop sequence explains the truncated text,
      with that one token counted. */
  lemma ExplainsStop(maxTokens: nat, stops: Option<seq<string>>, sample: Sampler,
                     i: nat, output: string, t: string, stop: string)
    requires i < maxTokens && sample(i).Token? && sample(i).piece == Ok(t)
    requires StopFor(stops, output + t) == Some(stop)
    ensures |stop| <= |output + t|
    ensures Explains(maxTokens, stops, sample, i, output, (output + t)[..|output + t| - |stop|], 1)
  {
    var full := output + t;
    var k :| 0 <= k < |stops.value| && stops.value[k] == stop && EndsWith(full, stop);
    var text := full[..|full| - |stop|];
    assert text + stop == full by {
      assert full[|full| - |stop|..] == stop;
    }
    assert Decoded(sample, i, i + 1);
    assert Emitted(sample, output, i, i + 1) == full by {
      EmittedStep(sample, output, i, i + 1);
      assert Emitted(sample, full, i + 1, i + 1) == full;
    }
  }

  /** A piece that completes no stop sequence and is fed back extends
      every explanation of the rest of the run by one counted token. */
  lemma ExplainsStep(maxTokens: nat, stops: Option<seq<string>>, sample: Sampler,
                     i: nat, output: string, t: string, text: string, n: nat)
    requires i < maxTokens && sample(i).Token? && sample(i).piece == Ok(t)
    requires StopFor(stops, output + t).None? && sample(i).advance.Advanced?
    requires Explains(maxTokens, stops, sample, i + 1, output + t, text, n)
    ensures Explains(maxTokens, stops, sample, i, output, text, n + 1)
  {
    var next := i + 1;
    assert Decoded(sample, i, next + n);
    NoEarlierStopStep(stops, sample, output, i, n + 1);
    EmittedStep(sample, output, i, next + n);
    if n == 0 {
      assert Emitted(sample, output + t, next, next) == output + t;
    }
  }

  /** Conversely, an explanation of a run whose first piece completes no
      stop sequence: that token was fed back, and the rest of the run
      explains the text with one token fewer. */
  lemma ExplainsUnstep(maxTokens: nat, stops: Option<seq<string>>, sample: Sampler,
                       i: nat, output: string, t: string, text: string, n: nat)
    requires n > 0 && sample(i).Token? && sample(i).piece == Ok(t)
    requires StopFor(stops, output + t).None?
    requires Explains(maxTokens, stops, sample, i, output, text, n)
    ensures sample(i).advance.Advanced?
    ensures Explains(maxTokens, stops, sample, i + 1, output + t, text, n - 1)
  {
    NoEarlierStopStep(stops, sample, output, i, n);
    EmittedStep(sample, output, i, i + n);
    if n == 1 {
      assert Emitted(sample, output + t, i + 1, i + 1) == output + t;
    }
  }

  /** A run that stops without reading a token explains its output as is. */
  lemma ExplainsDone(maxTokens: nat, stops: Option<seq<string>>, sample: Sampler, i: nat, output: string)
    requires i == maxTokens || (i < maxTokens && sample(i).EndOfGeneration?)
    ensures Explains(maxTokens, stops, sample, i, output, output, 0)
  {
    assert Emitted(sample, output, i, i) == output;
  }

  /** What a successful run from iteration `i` promises. */
  ghost predicate RunPromise(maxTokens: nat, stops: Option<seq<string>>, sample: Sampler,
                             i: nat, output: string, count: nat)
    requires i <= maxTokens
  {
    var r := Run(maxTokens, stops, sample, i, output, count);
    r.Ok? ==> r.value.1 >= count && Explains(maxTokens, stops, sample, i, output, r.value.0, r.value.1 - count)
  }

  /** A run that continues past iteration `i` keeps the promise of its rest. */
  lemma RunPromiseStep(maxTokens: nat, stops: Option<seq<string>>, sample: Sampler,
                       i: nat, output: string, count: nat)
    requires i < maxTokens && sample(i).Token? && sample(i).piece.Ok?
    requires StopFor(stops, output + sample(i).piece.value).None? && sample(i).advance.Advanced?
    requires RunPromise(maxTokens, stops, sample, i + 1, output + sample(i).piece.value, count + 1)
    ensures RunPromise(maxTokens, stops, sample, i, output, count)
  {
    var t := sample(i).piece.value;
    var rest := Run(maxTokens, stops, sample, i + 1, output + t, count + 1);
    assert Run(maxTokens, stops, sample, i, output, count) == rest;
    if rest.Ok? {
      ExplainsStep(maxTokens, stops, sample, i, output, t, rest.value.0, rest.value.1 - count - 1);
    }
  }

  /** A run cut at a stop sequence in iteration `i` keeps its promise. */
  lemma RunPromiseCut(maxTokens: nat, stops: Option<seq<string>>, sample: Sampler,
                      i: nat, output: string, count: nat, t: string, stop: string)
    requires i < maxTokens && sample(i).Token? && sample(i).piece == Ok(t)
    requires StopFor(stops, output + t) == Some(stop)
    ensures RunPromise(maxTokens, stops, sample, i, output, count)
  {
    ExplainsStop(maxTokens, stops, sample, i, output, t, stop);
    assert Run(maxTokens, stops, sample, i, output, count) == Ok(((output + t)[..|output + t| - |stop|], count + 1));
  }

  /** A run that ends at iteration `i` keeps its promise. */
  lemma RunPromiseEnd(maxTokens: nat, stops: Option<seq<string>>, sample: Sampler,
                      i: nat, output: string, count: nat)
    requires i <= maxTokens
    requires !(i < maxTokens && sample(i).Token? && sample(i).piece.Ok? &&
               StopFor(stops, output + sample(i).piece.value).None? && sample(i).advance.Advanced?)
    ensures RunPromise(maxTokens, stops, sample, i, output, count)
  {
    var r := Run(maxTokens, stops, sample, i, output, count);
    if i == maxTokens || sample(i).EndOfGeneration? {
      assert r == Ok((output, count));
      ExplainsDone(maxTokens, stops, sample, i, output);
    } else if sample(i).piece.Ok? {
      var t := sample(i).piece.value;
      match StopFor(stops, output + t)
      case Some(stop) =>
        RunPromiseCut(maxTokens, stops, sample, i, output, count, t, stop);
      case None =>
        assert r.Err?;
    } else {
      assert r.Err?;
    }
  }

  /** Every successful run from iteration `i` is explained by its tokens. */
  lemma {:induction false} RunExplained(maxTokens: nat, stops: Option<seq<string>>, sample: Sampler,
                                        i: nat, output: string, count: nat)
    requires i <= maxTokens
    ensures RunPromise(maxTokens, stops, sample, i, output, count)
    decreases maxTokens - i
  {
    if i < maxTokens && sample(i).Token? && sample(i).piece.Ok? &&
       StopFor(stops, output + sample(i).piece.value).None? && sample(i).advance.Advanced? {
      RunExplained(maxTokens, stops, sample, i + 1, output + sample(i).piece.value, count + 1);
      RunPromiseStep(maxTokens, stops, sample, i, output, count);
    } else {
      RunPromiseEnd(maxTokens, stops, sample, i, output, count);
    }
  }

  /** Every explanation of a run is what the run returns. */
  lemma {:induction false} ExplainedRun(maxTokens: nat, stops: Option<seq<string>>, sample: Sampler,
                                        i: nat, output: string, count: nat, text: string, n: nat)
    requires i <= maxTokens
    requires Explains(maxTokens, stops, sample, i, output, text, n)
    ensures Run(maxTokens, stops, sample, i, output, count) == Ok((text, count + n))
    decreases n
  {
    if n == 0 {
      assert Emitted(sample, output, i, i) == output;
    } else {
      var t := sample(i).piece.value;
      NoEarlierStopStep(stops, sample, output, i, n);
      EmittedStep(sample, output, i, i + 1);
      assert Emitted(sample, output + t, i + 1, i + 1) == output + t;
      match StopFor(stops, output + t)
      case Some(stop) =>
        assert n == 1;
        var full := output + t;
        assert text + stop == full;
        assert full[..|full| - |stop|] == text;
      case None =>
        ExplainsUnstep(maxTokens, stops, sample, i, output, t, text, n);
        ExplainedRun(maxTokens, stops, sample, i + 1, output + t, count + 1, text, n - 1);
    }
  }

  /** What `generate` returns on success, exactly: `tokens_generated` never
      exceeds `max_tokens` (so it fits in a `u32`), and the loop returns
      `text` after `n` tokens if and only if those tokens explain it: their
      decoded pieces, cut at the first stop sequence the moment one
      matched and untouched otherwise. */
  lemma GenerationOutcome(maxTokens: nat, stops: Option<seq<string>>, sample: Sampler, text: string, n: nat)
    ensures var r := Generate(maxTokens, stops, sample);
            r.Ok? ==> r.value.1 <= maxTokens
    ensures Generate(maxTokens, stops, sample) == Ok((text, n)) <==>
              Explains(maxTokens, stops, sample, 0, "", text, n)
  {
    RunExplained(maxTokens, stops, sample, 0, "", 0);
    if Explains(maxTokens, stops, sample, 0, "", text, n) {
      ExplainedRun(maxTokens, stops, sample, 0, "", 0, text, n);
    }
  }

  /** An end-of-generation token at iteration `k` after `k` pieces that
      all decoded, were all fed back and completed no stop sequence: it is
      neither appended nor counted, and the loop returns those pieces. */
  lemma EndOfGenerationAt(maxTokens: nat, stops: Option<seq<string>>, sample: Sampler, k: nat)
    requires k < maxTokens && sample(k) == EndOfGeneration
    requires forall j | 0 <= j < k :: sample(j).Token? && sample(j).piece.Ok? && sample(j).advance.Advanced?
    requires forall j | 0 < j <= k :: StopFor(stops, Pieces(sample, 0, j)).None?
    ensures Generate(maxTokens, stops, sample) == Ok((Pieces(sample, 0, k), k))
  {
    forall j | 0 <= j <= k
      ensures Emitted(sample, "", 0, j) == Pieces(sample, 0, j)
    {
    }
    assert Explains(maxTokens, stops, sample, 0, "", Pieces(sample, 0, k), k);
    ExplainedRun(maxTokens, stops, sample, 0, "", 0, Pieces(sample, 0, k), k);
  }

  /** An empty stop sequence at the head of the list matches every output:
      generation ends after the first piece, with nothing cut off. */
  lemma EmptyStopEndsAfterFirstPiece(maxTokens: nat, rest: seq<string>, sample: Sampler, text: string)
    requires maxTokens > 0 && sample(0).Token? && sample(0).piece == Ok(text)
    ensures Generate(maxTokens, Some([""] + rest), sample) == Ok((text, 1))
  {
    assert EndsWith("" + text, "");
    assert ("" + text)[..|"" + text| - 0] == text;
  }
}
