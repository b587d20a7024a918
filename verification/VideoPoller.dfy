/** Waiting for a video (`_poll_video_result` of src/services/generation_handler.py): nested polling
    loops inside nested exception handlers. What the upstream, the cache and the database do at each
    step is given by a script; the helper that emits a failure is assumed not to raise. */
module VideoPoller {
  import opened Prelude

  type Url = string

  /** One run of the final steps: the cached copy, if caching is on and works, and the database write. */
  datatype Finalization = Finalization(cached: Option<Url>, persists: bool)

  /** One status query of the upscaling task. A late raise comes after the query itself succeeded. */
  datatype UpQuery = UpRaises | UpLateRaise | UpPending | UpFailed | UpDone(url: Option<Url>, media: bool)

  datatype Upscale = SubmitRaises | NotCreated | Submitted(queries: seq<UpQuery>)

  /** One status query of the video. `first` is the finalization inside the upscaling branch, `second`
      the one after it. */
  datatype Poll =
    | CheckRaises
    | LateRaise
    | NoOperations
    | Waiting
    | UrlMissing
    | StatusFailed
    | StatusError
    | Ready(url: Url, media: bool, up: Upscale, first: Finalization, second: Finalization)

  datatype Output = Chunk | Success(url: Option<Url>) | Failure(code: int)

  datatype Mark = Unmarked | Succeeded | Failed

  predicate Terminal(o: Output) {
    !o.Chunk?
  }

  const UP_LIMIT: nat := 200
  const MAX_ERRORS := 3
  const MAX_UP_ERRORS := 5

  function PollAt(script: seq<Poll>, i: nat): Poll {
    if i < |script| then script[i] else Waiting
  }

  function QueryAt(queries: seq<UpQuery>, i: nat): UpQuery {
    if i < |queries| then queries[i] else UpPending
  }

  // ---------------------------------------------------------------- what should come out

  predicate UpRaised(q: UpQuery) {
    q == UpRaises || q == UpLateRaise
  }

  /** The query loop ends at the first of: success, failure, a fifth raise in a row. A late raise can
      only start a row, because its query succeeded. */
  predicate UpStops(queries: seq<UpQuery>, k: nat) {
    var q := QueryAt(queries, k);
    || q.UpDone? || q == UpFailed
    || (k + 1 >= MAX_UP_ERRORS && UpRaised(QueryAt(queries, k - 4)) && QueryAt(queries, k - 3) == UpRaises
        && QueryAt(queries, k - 2) == UpRaises && QueryAt(queries, k - 1) == UpRaises && q == UpRaises)
  }

  /** The upscaled url is used when the query that ends the loop is a success with a media id; in every
      other case the original one is kept. */
  ghost predicate ExpectedUrl(queries: seq<UpQuery>, original: Url, url: Option<Url>) {
    || (exists k: nat :: k < UP_LIMIT && UpStops(queries, k) && url == UrlAt(queries, original, k)
          && forall j: nat :: j < k ==> !UpStops(queries, j))
    || (url == Some(original) && forall j: nat :: j < UP_LIMIT ==> !UpStops(queries, j))
  }

  function UrlAt(queries: seq<UpQuery>, original: Url, k: nat): Option<Url> {
    match QueryAt(queries, k)
    case UpDone(url, media) => if media then url else Some(original)
    case _ => Some(original)
  }

  predicate Raised(p: Poll, upscale: bool) {
    p == CheckRaises || p == LateRaise || (p.Ready? && Settled(p, upscale).None?)
  }

  function Finalize(url: Option<Url>, f: Finalization): Option<Output> {
    if f.persists then Some(Success(if f.cached.Some? then f.cached else url)) else None
  }

  /** The output a finished video leads to; None when its finalization raises. */
  function Settled(p: Poll, upscale: bool): Option<Output>
    requires p.Ready?
  {
    if upscale && p.media && p.up.Submitted? then
      var url := UpscaleUrl(p.up.queries, p.url, 0, 0);
      var first := Finalize(url, p.first);
      if first.Some? then first else Finalize(url, p.second)
    else Finalize(Some(p.url), p.second)
  }

  /** The query loop step by step: the url to return, after `errors` raises in a row. */
  function UpscaleUrl(queries: seq<UpQuery>, original: Url, i: nat, errors: nat): Option<Url>
    decreases UP_LIMIT - i
  {
    if i >= UP_LIMIT then Some(original)
    else
      match QueryAt(queries, i)
      case UpDone(url, media) => if media then url else Some(original)
      case UpFailed => Some(original)
      case UpPending => UpscaleUrl(queries, original, i + 1, 0)
      case UpLateRaise => UpscaleUrl(queries, original, i + 1, 1)
      case UpRaises => if errors + 1 >= MAX_UP_ERRORS then Some(original)
          else UpscaleUrl(queries, original, i + 1, errors + 1)
  }

  /** A poll that ends the wait by itself. */
  function Verdict(p: Poll, upscale: bool): Option<Output> {
    match p
    case UrlMissing => Some(Failure(502))
    case StatusFailed => Some(Failure(502))
    case StatusError => Some(Failure(502))
    case Ready(_, _, _, _, _) => Settled(p, upscale)
    case _ => None
  }

  /** Or the third raise in a row does; a raise after a successful query can only start a row. */
  predicate GivesUp(script: seq<Poll>, k: nat, upscale: bool) {
    k >= 2 && Raised(PollAt(script, k - 2), upscale) && PollAt(script, k - 1) == CheckRaises &&
        PollAt(script, k) == CheckRaises
  }

  predicate Stops(script: seq<Poll>, k: nat, upscale: bool) {
    Verdict(PollAt(script, k), upscale).Some? || GivesUp(script, k, upscale)
  }

  function StopOutput(script: seq<Poll>, k: nat, upscale: bool): Output {
    Verdict(PollAt(script, k), upscale).GetOr(Failure(502))
  }

  /** The whole wait, with no reference to counters: the first poll that stops it decides; otherwise it
      times out. */
  ghost predicate Expected(script: seq<Poll>, max: nat, upscale: bool, o: Output) {
    || (exists k: nat :: k < max && Stops(script, k, upscale) && o == StopOutput(script, k, upscale)
          && forall j: nat :: j < k ==> !Stops(script, j, upscale))
    || (o == Failure(504) && forall j: nat :: j < max ==> !Stops(script, j, upscale))
  }

  lemma StopsAt(script: seq<Poll>, max: nat, k: nat, upscale: bool, o: Output)
    requires k < max && Stops(script, k, upscale) && o == StopOutput(script, k, upscale)
    requires forall j: nat :: j < k ==> !Stops(script, j, upscale)
    ensures Expected(script, max, upscale, o)
  {
  }

  /** Exactly one output is expected of a script. */
  lemma ExpectedUnique(script: seq<Poll>, max: nat, upscale: bool, a: Output, b: Output)
    requires Expected(script, max, upscale, a) && Expected(script, max, upscale, b)
    ensures a == b
  {
    if exists j: nat :: j < max && Stops(script, j, upscale) {
      var k: nat :| k < max && Stops(script, k, upscale) && a == StopOutput(script, k, upscale)
          && forall j: nat :: j < k ==> !Stops(script, j, upscale);
      var m: nat :| m < max && Stops(script, m, upscale) && b == StopOutput(script, m, upscale)
          && forall j: nat :: j < m ==> !Stops(script, j, upscale);
      assert k == m;
    }
  }

  // ---------------------------------------------------------------- the loops

  function Attempts(maxPoll: nat, upscale: bool): nat {
    if upscale then maxPoll * 3 else maxPoll
  }

  predicate OnlyChunks(out: seq<Output>) {
    forall i :: 0 <= i < |out| ==> out[i] == Chunk
  }

  /** `errors` is the length of the row of raises just before poll `i`. */
  predicate Row(script: seq<Poll>, i: nat, upscale: bool, errors: nat) {
    && errors <= i && errors <= 2
    && (errors >= 1 <==> i >= 1 && Raised(PollAt(script, i - 1), upscale))
    && (errors == 2 ==> i >= 2 && Raised(PollAt(script, i - 2), upscale) && PollAt(script, i - 1) == CheckRaises)
    && (errors == 1 && i >= 2 && PollAt(script, i - 1) == CheckRaises ==> !Raised(PollAt(script, i - 2), upscale))
  }

  /** `_finalize_video_success`: the outputs so far, and the terminal one unless the write raises. */
  method FinalizeSuccess(url: Option<Url>, f: Finalization, stream: bool) returns (out: seq<Output>, done: Option<Output>)
    ensures OnlyChunks(out) && done == Finalize(url, f)
  {
    out := if stream then [Chunk] else [];
    var local := if f.cached.Some? then f.cached else url;
    if !f.persists {
      return out, None;
    }
    return out, Some(Success(local));
  }

  /** The query loop of the upscaling branch. */
  method PollUpscale(queries: seq<UpQuery>, original: Url, stream: bool)
      returns (out: seq<Output>, url: Option<Url>, asked: nat)
    ensures OnlyChunks(out) && asked <= UP_LIMIT
    ensures url == UpscaleUrl(queries, original, 0, 0)
  {
    out, url, asked := [], Some(original), 0;
    var upOk, upUrl, upMedia := false, None, false;
    var errors := 0;
    var i := 0;
    while i < UP_LIMIT
      invariant i <= UP_LIMIT && asked == i && OnlyChunks(out) && !upOk
      invariant UpscaleUrl(queries, original, 0, 0) == UpscaleUrl(queries, original, i, errors)
    {
      asked := asked + 1;
      if stream && i % 7 == 0 && QueryAt(queries, i) != UpRaises {
        out := out + [Chunk];
      }
      match QueryAt(queries, i) {
        case UpDone(u, media) =>
          upOk, upUrl, upMedia := true, u, media;
          break;
        case UpFailed =>
          out := if stream then out + [Chunk] else out;
          break;
        case UpPending =>
          errors := 0;
        case UpLateRaise =>
          errors := 1;
        case UpRaises =>
          errors := errors + 1;
          if errors >= MAX_UP_ERRORS {
            out := if stream then out + [Chunk] else out;
            break;
          }
      }
      i := i + 1;
    }
    if upOk && upMedia {
      url := upUrl;
    }
    out := if stream then out + [Chunk] else out;
  }

  /** What follows a finished video: upscale if asked to, finalize, and finalize again when the first
      finalization raised inside the upscaling handler. */
  method SettleReady(p: Poll, upscale: bool, stream: bool) returns (out: seq<Output>, done: Option<Output>, asked: nat)
    requires p.Ready?
    ensures OnlyChunks(out) && done == Settled(p, upscale) && asked <= UP_LIMIT
  {
    out, asked := [], 0;
    var url := Some(p.url);
    if upscale && p.media {
      out := if stream then [Chunk] else [];
      if p.up.Submitted? {
        var chunks, chosen, n := PollUpscale(p.up.queries, p.url, stream);
        out, url, asked := out + chunks, chosen, n;
        chunks, done := FinalizeSuccess(url, p.first, stream);
        out := out + chunks;
        if done.Some? {
          return;
        }
      }
      out := if stream then out + [Chunk] else out;
    }
    var last;
    last, done := FinalizeSuccess(url, p.second, stream);
    out := out + last;
  }

  /** One poll: its outputs, the verdict if it has one, and whether it raised. */
  method Answer(p: Poll, upscale: bool, stream: bool, report: bool)
    returns (out: seq<Output>, done: Option<Output>, raised: bool, asked: nat)
    ensures OnlyChunks(out) && done == Verdict(p, upscale) && raised == Raised(p, upscale) && asked <= UP_LIMIT
  {
    out, done, raised, asked := if stream && report && p != CheckRaises && p != NoOperations then [Chunk]
        else [], None, false, 0;
    match p {
      case CheckRaises =>
        raised := true;
      case LateRaise =>
        raised := true;
      case UrlMissing =>
        done := Some(Failure(502));
      case StatusFailed =>
        out := if stream then out + [Chunk] else out;
        done := Some(Failure(502));
      case StatusError =>
        done := Some(Failure(502));
      case Ready(_, _, _, _, _) =>
        var chunks;
        chunks, done, asked := SettleReady(p, upscale, stream);
        out, raised := out + chunks, done.None?;
      case _ =>
    }
  }

  /** How the row of raises goes on when poll `i` has no verdict. */
  lemma RowStep(script: seq<Poll>, i: nat, upscale: bool, errors: nat)
    requires Row(script, i, upscale, errors) && Verdict(PollAt(script, i), upscale).None?
    ensures var p := PollAt(script, i);
            var kept := if p == CheckRaises then errors else 0;
            var next := if Raised(p, upscale) then kept + 1 else kept;
            && (next >= MAX_ERRORS <==> GivesUp(script, i, upscale))
            && (next < MAX_ERRORS ==> Row(script, i + 1, upscale, next))
  {
  }

  /** The whole wait. `asked` counts the status queries of the video, `most` the most queries made of one
      upscaling task. */
  method PollVideoResult(script: seq<Poll>, maxPoll: nat, upscale: bool, stream: bool)
    returns (out: seq<Output>, mark: Mark, asked: nat, most: nat)
    ensures |out| > 0 && OnlyChunks(out[..|out| - 1]) && Terminal(out[|out| - 1])
    ensures Expected(script, Attempts(maxPoll, upscale), upscale, out[|out| - 1])
    ensures mark == if out[|out| - 1].Success? then Succeeded else Failed
    ensures asked <= Attempts(maxPoll, upscale) && most <= UP_LIMIT
  {
    var max := Attempts(maxPoll, upscale);
    out, asked, most := [], 0, 0;
    var errors := 0;
    var i := 0;
    while i < max
      invariant i <= max && asked == i && most <= UP_LIMIT && OnlyChunks(out)
      invariant forall j: nat :: j < i ==> !Stops(script, j, upscale)
      invariant Row(script, i, upscale, errors)
    {
      asked := asked + 1;
      var p := PollAt(script, i);
      var chunks, done, raised, n := Answer(p, upscale, stream, i % 7 == 0);
      out, most := out + chunks, if n > most then n else most;
      if done.Some? {
        StopsAt(script, max, i, upscale, done.value);
        mark := if done.value.Success? then Succeeded else Failed;
        return out + [done.value], mark, asked, most;
      }
      RowStep(script, i, upscale, errors);
      errors := if p == CheckRaises then errors else 0;
      if raised {
        errors := errors + 1;
        if errors >= MAX_ERRORS {
          StopsAt(script, max, i, upscale, Failure(502));
          out := if stream then out + [Chunk] else out;
          return out + [Failure(502)], Failed, asked, most;
        }
      }
      i := i + 1;
    }
    return out + [Failure(504)], Failed, asked, most;
  }

  // ---------------------------------------------------------------- the upscaling loop in closed form

  /** Position `i` with `errors` raises in a row just before it. */
  predicate UpRow(queries: seq<UpQuery>, i: nat, errors: nat) {
    && errors <= i && errors < MAX_UP_ERRORS
    && (errors >= 1 <==> i >= 1 && UpRaised(QueryAt(queries, i - 1)))
    && (errors > 0 ==> UpRaised(QueryAt(queries, i - errors)))
    && (forall j :: i - errors < j < i ==> QueryAt(queries, j) == UpRaises)
    && (errors > 0 && QueryAt(queries, i - errors) == UpRaises ==>
        i == errors || !UpRaised(QueryAt(queries, i - errors - 1)))
  }

  lemma FifthRaise(queries: seq<UpQuery>, i: nat, errors: nat)
    requires UpRow(queries, i, errors) && QueryAt(queries, i) == UpRaises
    ensures UpStops(queries, i) <==> errors + 1 >= MAX_UP_ERRORS
  {
    if errors + 1 < MAX_UP_ERRORS && i >= 4 {
      ShortRow(queries, i, errors);
    }
  }

  lemma ShortRow(queries: seq<UpQuery>, i: nat, errors: nat)
    requires UpRow(queries, i, errors) && errors < 4 && i >= 4
    ensures !(UpRaised(QueryAt(queries, i - 4)) && QueryAt(queries, i - 3) == UpRaises
              && QueryAt(queries, i - 2) == UpRaises && QueryAt(queries, i - 1) == UpRaises)
  {
  }

  lemma {:induction false} UpscaleScan(queries: seq<UpQuery>, original: Url, i: nat, errors: nat)
    requires i <= UP_LIMIT && UpRow(queries, i, errors) && forall j: nat :: j < i ==> !UpStops(queries, j)
    ensures ExpectedUrl(queries, original, UpscaleUrl(queries, original, i, errors))
    decreases UP_LIMIT - i
  {
    if i < UP_LIMIT {
      var q := QueryAt(queries, i);
      if q == UpRaises {
        FifthRaise(queries, i, errors);
      }
      if UpStops(queries, i) {
        assert UpscaleUrl(queries, original, i, errors) == UrlAt(queries, original, i);
      } else {
        UpscaleScan(queries, original, i + 1, if q == UpPending then 0 else if q == UpLateRaise then 1 else errors + 1);
      }
    }
  }

  lemma UpscaleClosedForm(queries: seq<UpQuery>, original: Url)
    ensures ExpectedUrl(queries, original, UpscaleUrl(queries, original, 0, 0))
  {
    UpscaleScan(queries, original, 0, 0);
  }

  // ---------------------------------------------------------------- the whole wait in closed form

  /** Every database write this finished video leads to fails. */
  predicate WritesFail(p: Poll, upscale: bool) {
    p.Ready? && !p.second.persists && (upscale && p.media && p.up.Submitted? ==> !p.first.persists)
  }

  /** A finished video that is written. */
  predicate Finished(p: Poll, upscale: bool) {
    p.Ready? && !WritesFail(p, upscale)
  }

  /** The wait is over at poll `k`: the upstream reports a failure or no address, a finished video is written,
      or the third poll in a row raises, the last two in their query. */
  predicate Over(script: seq<Poll>, k: nat, upscale: bool) {
    var p := PollAt(script, k);
    || p == UrlMissing || p == StatusFailed || p == StatusError || Finished(p, upscale)
    || (k >= 2 && p == CheckRaises && PollAt(script, k - 1) == CheckRaises
        && (var q := PollAt(script, k - 2);
            q == CheckRaises || q == LateRaise || WritesFail(q, upscale)))
  }

  predicate FirstOver(script: seq<Poll>, k: nat, upscale: bool) {
    Over(script, k, upscale) && forall j: nat :: j < k ==> !Over(script, j, upscale)
  }

  /** The url before caching: the upscaled one when the query that ends upscaling is a success with a media id,
      and the original one in every other case. */
  ghost predicate BaseUrl(p: Poll, upscale: bool, url: Option<Url>)
    requires p.Ready?
  {
    if upscale && p.media && p.up.Submitted? && exists k: nat :: UpscaledAt(p.up.queries, k) then
      exists k: nat :: UpscaledAt(p.up.queries, k) && url == QueryAt(p.up.queries, k).url
    else url == Some(p.url)
  }

  /** Upscaling ends at query `k`, with a success that has a media id. */
  predicate UpscaledAt(queries: seq<UpQuery>, k: nat) {
    && k < 200 && QueryAt(queries, k).UpDone? && QueryAt(queries, k).media
    && forall j: nat :: j < k ==> !UpStops(queries, j)
  }

  /** The finalization whose write succeeds first. */
  function Written(p: Poll, upscale: bool): Finalization
    requires p.Ready?
  {
    if upscale && p.media && p.up.Submitted? && p.first.persists then p.first else p.second
  }

  /** What the client is sent: the cached copy of the finalization that is written, if it has one. */
  ghost predicate Carries(p: Poll, upscale: bool, url: Option<Url>)
    requires p.Ready?
  {
    if Written(p, upscale).cached.Some? then url == Written(p, upscale).cached else BaseUrl(p, upscale, url)
  }

  lemma UpscaleUrlIs(queries: seq<UpQuery>, original: Url)
    ensures var url := UpscaleUrl(queries, original, 0, 0);
            if exists k: nat :: UpscaledAt(queries, k)
            then exists k: nat :: UpscaledAt(queries, k) && url == QueryAt(queries, k).url
            else url == Some(original)
  {
    var url := UpscaleUrl(queries, original, 0, 0);
    UpscaleClosedForm(queries, original);
    if k: nat :| UpscaledAt(queries, k) {
      assert UpStops(queries, k);
      var m: nat :| m < UP_LIMIT && UpStops(queries, m) && url == UrlAt(queries, original, m)
          && forall j: nat :: j < m ==> !UpStops(queries, j);
      assert k == m;
    } else if url != Some(original) {
      var m: nat :| m < UP_LIMIT && UpStops(queries, m) && url == UrlAt(queries, original, m)
          && forall j: nat :: j < m ==> !UpStops(queries, j);
      assert UpscaledAt(queries, m);
    }
  }

  lemma OneUpscale(queries: seq<UpQuery>, k: nat, m: nat)
    requires UpscaledAt(queries, k) && UpscaledAt(queries, m)
    ensures k == m
  {
    assert UpStops(queries, k) && UpStops(queries, m);
  }

  lemma BaseUrlIs(p: Poll, upscale: bool, url: Option<Url>)
    requires p.Ready?
    ensures BaseUrl(p, upscale, url) <==>
            url == if upscale && p.media && p.up.Submitted? then UpscaleUrl(p.up.queries, p.url, 0, 0) else Some(p.url)
  {
    if upscale && p.media && p.up.Submitted? {
      UpscaleUrlIs(p.up.queries, p.url);
      forall k: nat, m: nat | UpscaledAt(p.up.queries, k) && UpscaledAt(p.up.queries, m) ensures k == m {
        OneUpscale(p.up.queries, k, m);
      }
    }
  }

  lemma SettledIs(p: Poll, upscale: bool, url: Option<Url>)
    requires p.Ready?
    ensures Settled(p, upscale).None? <==> WritesFail(p, upscale)
    ensures Settled(p, upscale) == Some(Success(url)) <==> Finished(p, upscale) && Carries(p, upscale, url)
    ensures Settled(p, upscale).Some? ==> Settled(p, upscale).value.Success?
  {
    BaseUrlIs(p, upscale, url);
  }

  lemma StopsIs(script: seq<Poll>, k: nat, upscale: bool)
    ensures Stops(script, k, upscale) <==> Over(script, k, upscale)
    ensures var p := PollAt(script, k);
            Over(script, k, upscale) ==>
              StopOutput(script, k, upscale) == if Finished(p, upscale) then Settled(p, upscale).value else Failure(502)
  {
    if PollAt(script, k).Ready? {
      SettledIs(PollAt(script, k), upscale, None);
    }
    if k >= 2 && PollAt(script, k - 2).Ready? {
      SettledIs(PollAt(script, k - 2), upscale, None);
    }
  }

  lemma ExpectedAt(script: seq<Poll>, max: nat, upscale: bool, o: Output)
    ensures Expected(script, max, upscale, o)
            <==> (exists k: nat :: k < max && FirstOver(script, k, upscale) && o == StopOutput(script, k, upscale))
                 || (o == Failure(504) && forall j: nat :: j < max ==> !Over(script, j, upscale))
  {
    forall k: nat ensures Stops(script, k, upscale) <==> Over(script, k, upscale) {
      StopsIs(script, k, upscale);
    }
    if Expected(script, max, upscale, o) && exists k: nat :: k < max && Stops(script, k, upscale) {
      var k: nat :| k < max && Stops(script, k, upscale) && o == StopOutput(script, k, upscale)
          && forall j: nat :: j < k ==> !Stops(script, j, upscale);
      assert FirstOver(script, k, upscale);
    }
  }

  /** The wait ends in a success with this url exactly when the first poll at which it is over finds a
      finished video that is written and carries it. */
  lemma SuccessUrlIff(script: seq<Poll>, max: nat, upscale: bool, url: Option<Url>)
    ensures Expected(script, max, upscale, Success(url))
            <==> exists k: nat :: k < max && FirstOver(script, k, upscale)
                     && Finished(PollAt(script, k), upscale) && Carries(PollAt(script, k), upscale, url)
  {
    ExpectedAt(script, max, upscale, Success(url));
    forall k: nat | FirstOver(script, k, upscale)
      ensures StopOutput(script, k, upscale) == Success(url)
              <==> Finished(PollAt(script, k), upscale) && Carries(PollAt(script, k), upscale, url)
    {
      StopsIs(script, k, upscale);
      if Finished(PollAt(script, k), upscale) {
        SettledIs(PollAt(script, k), upscale, url);
      }
    }
  }

  ghost predicate EndsUnfinished(script: seq<Poll>, max: nat, upscale: bool) {
    exists k: nat :: k < max && FirstOver(script, k, upscale) && !Finished(PollAt(script, k), upscale)
  }

  /** It fails with 502 exactly when it is over first for another reason, with 504 exactly when it is never
      over, and with nothing else. */
  lemma FailureIff(script: seq<Poll>, max: nat, upscale: bool, code: int)
    ensures Expected(script, max, upscale, Failure(code))
            <==> (code == 502 && EndsUnfinished(script, max, upscale))
                 || (code == 504 && forall j: nat :: j < max ==> !Over(script, j, upscale))
  {
    ExpectedAt(script, max, upscale, Failure(code));
    forall k: nat | FirstOver(script, k, upscale)
      ensures StopOutput(script, k, upscale) == Failure(code)
              <==> code == 502 && !Finished(PollAt(script, k), upscale)
    {
      StopsIs(script, k, upscale);
      if Finished(PollAt(script, k), upscale) {
        SettledIs(PollAt(script, k), upscale, None);
      }
    }
  }

  /** The bound is the configured number of polls, three times as many when an upscale is wanted; what a script
      leaves open is a video, or an upscaling, still under way. */
  lemma BoundsAre(maxPoll: nat, script: seq<Poll>, queries: seq<UpQuery>, i: nat)
    ensures Attempts(maxPoll, false) == maxPoll && Attempts(maxPoll, true) == maxPoll + maxPoll + maxPoll
    ensures i >= |script| ==> !Over(script, i, false) && !Raised(PollAt(script, i), false)
    ensures i >= |queries| ==> QueryAt(queries, i) == UpPending
  {
  }

  // ---------------------------------------------------------------- what can go wrong

  /** The query that ends the upscaling loop is a success with a media id and no url. */
  ghost predicate UrlLost(queries: seq<UpQuery>) {
    exists k: nat :: k < UP_LIMIT && UpStops(queries, k) && QueryAt(queries, k) == UpDone(None, true)
        && forall j: nat :: j < k ==> !UpStops(queries, j)
  }

  lemma UrlLostIff(queries: seq<UpQuery>, original: Url)
    ensures UpscaleUrl(queries, original, 0, 0).None? <==> UrlLost(queries)
  {
    UpscaleClosedForm(queries, original);
    var url := UpscaleUrl(queries, original, 0, 0);
    if UrlLost(queries) {
      var k: nat :| k < UP_LIMIT && UpStops(queries, k) && QueryAt(queries, k) == UpDone(None, true)
          && forall j: nat :: j < k ==> !UpStops(queries, j);
      var m: nat :| m < UP_LIMIT && UpStops(queries, m) && url == UrlAt(queries, original, m)
          && forall j: nat :: j < m ==> !UpStops(queries, j);
      assert k == m;
    }
  }

  /** A finished video that loses its url in upscaling, has no cached copy in the finalization that
      counts, and is written. */
  ghost predicate BlankSuccess(p: Poll, upscale: bool) {
    && p.Ready? && upscale && p.media && p.up.Submitted? && UrlLost(p.up.queries)
    && (if p.first.persists then p.first.cached.None? else p.second.persists && p.second.cached.None?)
  }

  lemma SettledBlankIff(p: Poll, upscale: bool)
    requires p.Ready?
    ensures Settled(p, upscale) == Some(Success(None)) <==> BlankSuccess(p, upscale)
  {
    if p.up.Submitted? {
      UrlLostIff(p.up.queries, p.url);
    }
  }

  /** The wait ends in a success without a url exactly when the first poll that stops it is such a video. */
  lemma SuccessWithoutUrlIff(script: seq<Poll>, max: nat, upscale: bool)
    ensures Expected(script, max, upscale, Success(None))
            <==> exists k: nat :: k < max && BlankSuccess(PollAt(script, k), upscale)
                     && forall j: nat :: j < k ==> !Stops(script, j, upscale)
  {
    forall k: nat ensures (Stops(script, k, upscale) && StopOutput(script, k, upscale) == Success(None))
                          <==> BlankSuccess(PollAt(script, k), upscale) {
      if PollAt(script, k).Ready? {
        SettledBlankIff(PollAt(script, k), upscale);
      }
    }
    if Expected(script, max, upscale, Success(None)) {
      var k: nat :| k < max && Stops(script, k, upscale) && Success(None) == StopOutput(script, k, upscale)
          && forall j: nat :: j < k ==> !Stops(script, j, upscale);
      assert BlankSuccess(PollAt(script, k), upscale);
    }
  }

  /** It happens: the first query of the first finished video's upscaling succeeds with a media id only. */
  lemma BlankSuccessHappens(url: Url, queries: seq<UpQuery>, saved: Finalization, script: seq<Poll>)
    requires queries == [UpDone(None, true)] && saved == Finalization(None, true)
    requires script == [Ready(url, true, Submitted(queries), saved, saved)]
    ensures Expected(script, 1, true, Success(None))
  {
    assert QueryAt(queries, 0) == UpDone(None, true) && UpStops(queries, 0);
    assert BlankSuccess(PollAt(script, 0), true);
    SuccessWithoutUrlIff(script, 1, true);
  }

  /** A finished video whose database writes fail never counts as a row of errors, because each status
      query succeeds: while every poll finds a finished video the wait goes on, upscaling again each time,
      and times out exactly when every write fails. */
  lemma PersistOutageTimesOut(script: seq<Poll>, max: nat, upscale: bool)
    requires forall i: nat :: i < max ==> PollAt(script, i).Ready?
    ensures Expected(script, max, upscale, Failure(504))
            <==> forall i: nat :: i < max ==> WritesFail(PollAt(script, i), upscale)
  {
    forall j: nat | j < max ensures Stops(script, j, upscale) <==> !WritesFail(PollAt(script, j), upscale) {
      assert PollAt(script, j).Ready?;
    }
  }

  /** Three failing writes time out where three failing queries give up. */
  lemma OutagesDiffer(url: Url, lost: Finalization, p: Poll)
    requires lost == Finalization(None, false) && p == Ready(url, false, NotCreated, lost, lost)
    ensures Expected([p, p, p], 3, false, Failure(504))
    ensures Expected([CheckRaises, CheckRaises, CheckRaises], 3, false, Failure(502))
  {
    PersistOutageTimesOut([p, p, p], 3, false);
    StopsAt([CheckRaises, CheckRaises, CheckRaises], 3, 2, false, Failure(502));
  }
}
