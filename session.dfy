/**
 * A learning session: the generated session text is fetched and checked, then
 * the session container steps through its challenges, adding up the XP each
 * one reports, and reports the total once after the last one. The learning
 * modal in front of it shows the video first and the session second.
 */
module Session {
  import opened Common
  import opened Json
  import opened Challenges

  // ---------------------------------------------------------------------------
  // Fetching and checking the session text

  /** The placeholder that stands for "no key configured". */
  const PlaceholderKey: string := "YOUR_COHERE_API_KEY"

  /** What the request produced, as seen by the code after `await fetch(...)`. */
  datatype FetchOutcome =
    | RequestFailed                   // `fetch` or `response.json()` rejected
    | NotOk(status: int)              // `!response.ok`
    | Delivered(text: Option<string>) // `data.text`; `None` when it is not a string

  datatype SessionError =
    | MissingKey          // "Cohere API key is missing."
    | RequestError        // the rejection's own message
    | ApiError(status: int)
    | InvalidSession      // "The session data returned was not valid JSON."

  /** A usable key: present, non-empty and not the placeholder. */
  predicate KeyPresent(apiKey: Option<string>)
  {
    TruthyString(apiKey) && apiKey.value != PlaceholderKey
  }

  /** The index of the first `c` in `s`. */
  function IndexOf(s: string, c: char): (r: Option<nat>)
    ensures r.None? <==> c !in s
    ensures r.Some? ==> r.value < |s| && s[r.value] == c
    ensures r.Some? ==> forall k :: 0 <= k < r.value ==> s[k] != c
  {
    if s == [] then None
    else if s[0] == c then Some(0)
    else
      var t := IndexOf(s[1..], c);
      assert forall k :: 1 <= k < |s| ==> s[k] == s[1..][k - 1];
      if t.None? then None else Some(t.value + 1)
  }

  /** The index of the last `c` in `s`. */
  function LastIndexOf(s: string, c: char): (r: Option<nat>)
    ensures r.None? <==> c !in s
    ensures r.Some? ==> r.value < |s| && s[r.value] == c
    ensures r.Some? ==> forall k :: r.value < k < |s| ==> s[k] != c
  {
    if s == [] then None
    else if s[|s| - 1] == c then Some(|s| - 1)
    else
      var t := LastIndexOf(s[..|s| - 1], c);
      assert forall k :: 0 <= k < |s| - 1 ==> s[k] == s[..|s| - 1][k];
      t
  }

  /** `a` is the first `{` of `s`, `b` its last `}`, and `a` comes first. */
  predicate FirstToLast(s: string, a: int, b: int)
  {
    0 <= a < b < |s| && s[a] == '{' && s[b] == '}' &&
    (forall k :: 0 <= k < a ==> s[k] != '{') &&
    (forall k :: b < k < |s| ==> s[k] != '}')
  }

  /**
   * The match of `/{[\s\S]*}/`: the span from the first `{` to the last `}`,
   * present exactly when some `{` comes before some `}`.
   */
  function Envelope(s: string): (r: Option<string>)
    ensures r.Some? <==> exists i, j :: 0 <= i < j < |s| && s[i] == '{' && s[j] == '}'
    ensures r.Some? ==> exists a, b :: FirstToLast(s, a, b) && r.value == s[a..b + 1]
  {
    var a, b := IndexOf(s, '{'), LastIndexOf(s, '}');
    if a.Some? && b.Some? && a.value < b.value then
      assert FirstToLast(s, a.value, b.value);
      Some(s[a.value..b.value + 1])
    else None
  }

  /** Text around the object that holds no brace of the wrong kind is stripped. */
  lemma EnvelopeStripsSurroundings(p: string, t: string, q: string)
    requires |t| >= 2 && t[0] == '{' && t[|t| - 1] == '}'
    requires '{' !in p && '}' !in q
    ensures Envelope(p + t + q) == Some(t)
  {
    var s := p + t + q;
    assert s[|p|] == '{' && s[|p| + |t| - 1] == '}';
    var a, b := IndexOf(s, '{'), LastIndexOf(s, '}');
    assert forall k :: 0 <= k < |p| ==> s[k] == p[k];
    assert forall k :: |p| + |t| <= k < |s| ==> s[k] == q[k - |p| - |t|];
    assert a.Some? && a.value == |p|;
    assert b.Some? && b.value == |p| + |t| - 1;
    assert s[|p|..|p| + |t|] == t;
  }

  /** `parsed.challenges && Array.isArray(parsed.challenges)` */
  predicate HasChallengesArray(v: Json)
  {
    Get(v, "challenges").Some? && Get(v, "challenges").value.JArray?
  }

  /**
   * `callCohereApiForSession`: the key is checked before anything else; a
   * failed request or a non-OK status is an error; otherwise the envelope of
   * the text must parse to a value with a `challenges` array, and any other
   * outcome is the "not valid JSON" error.
   */
  function ParseSession(apiKey: Option<string>, fetched: FetchOutcome, parse: string -> Option<Json>): (r: Result<Json, SessionError>)
    ensures !KeyPresent(apiKey) ==> r == Err(MissingKey)
    ensures KeyPresent(apiKey) && fetched.RequestFailed? ==> r == Err(RequestError)
    ensures KeyPresent(apiKey) && fetched.NotOk? ==> r == Err(ApiError(fetched.status))
    ensures r.Ok? <==>
      KeyPresent(apiKey) && fetched.Delivered? && fetched.text.Some? &&
      Envelope(fetched.text.value).Some? &&
      parse(Envelope(fetched.text.value).value).Some? &&
      HasChallengesArray(parse(Envelope(fetched.text.value).value).value)
    ensures r.Ok? ==> r.value == parse(Envelope(fetched.text.value).value).value && HasChallengesArray(r.value)
    ensures KeyPresent(apiKey) && fetched.Delivered? && r.Err? ==> r.error == InvalidSession
  {
    if !KeyPresent(apiKey) then Err(MissingKey)
    else match fetched
      case RequestFailed => Err(RequestError)
      case NotOk(status) => Err(ApiError(status))
      case Delivered(text) =>
        if text.None? then Err(InvalidSession)
        else
          var env := Envelope(text.value);
          if env.None? then Err(InvalidSession)
          else
            var parsed := parse(env.value);
            if parsed.Some? && HasChallengesArray(parsed.value) then Ok(parsed.value)
            else Err(InvalidSession)
  }

  /** Without a usable key nothing the request returns can matter. */
  lemma MissingKeyWins(apiKey: Option<string>, f1: FetchOutcome, f2: FetchOutcome, parse: string -> Option<Json>)
    requires apiKey == None || apiKey == Some("") || apiKey == Some(PlaceholderKey)
    ensures ParseSession(apiKey, f1, parse) == ParseSession(apiKey, f2, parse) == Err(MissingKey)
  {
  }

  /** A reply wrapped in prose or a code fence is accepted as the object inside it. */
  lemma WrappedReplyAccepted(apiKey: Option<string>, p: string, t: string, q: string, parse: string -> Option<Json>)
    requires KeyPresent(apiKey)
    requires |t| >= 2 && t[0] == '{' && t[|t| - 1] == '}'
    requires '{' !in p && '}' !in q
    requires parse(t).Some? && HasChallengesArray(parse(t).value)
    ensures ParseSession(apiKey, Delivered(Some(p + t + q)), parse) == Ok(parse(t).value)
  {
    EnvelopeStripsSurroundings(p, t, q);
  }

  // ---------------------------------------------------------------------------
  // Stepping through the challenges

  /** Where the container stands: current challenge, XP so far, the reported total if any. */
  datatype Progress = Progress(index: nat, total: int, reported: Option<int>)

  const Start: Progress := Progress(0, 0, None)

  /**
   * `handleStepComplete`: add the step's XP; move on while the current
   * challenge is not the last, and on the last report the total.
   */
  function StepComplete(p: Progress, count: nat, xp: int): (q: Progress)
    ensures q.total == p.total + xp
    ensures p.index + 1 < count ==> q == Progress(p.index + 1, p.total + xp, p.reported)
    ensures p.index + 1 >= count ==> q == Progress(p.index, p.total + xp, Some(p.total + xp))
  {
    if p.index < count - 1 then Progress(p.index + 1, p.total + xp, p.reported)
    else Progress(p.index, p.total + xp, Some(p.total + xp))
  }

  function Sum(xs: seq<int>): int
  {
    if xs == [] then 0 else xs[0] + Sum(xs[1..])
  }

  /**
   * A run of the session against the awards the sub-machines report in turn.
   * It stops once the total is reported (the modal closes), when the awards
   * run out, or at a challenge that no user actions bring to a reporting
   * Continue (a placeholder, a notice, a throw, or a sub-machine that gets stuck).
   */
  function Run(cs: seq<Challenge>, p: Progress, awards: seq<int>): (q: Progress)
    requires p.index < |cs|
    ensures q.index < |cs| && p.index <= q.index
    decreases |awards|
  {
    if awards == [] || p.reported.Some? || !CanReport(cs[p.index]) then p
    else Run(cs, StepComplete(p, |cs|, awards[0]), awards[1..])
  }

  predicate AllCanReport(cs: seq<Challenge>)
  {
    forall k :: 0 <= k < |cs| ==> CanReport(cs[k])
  }

  /**
   * When every challenge can report, a run from challenge i with enough awards
   * reports exactly once, on the last challenge, the running total plus the
   * awards of the remaining challenges.
   */
  lemma {:induction false} RunAllReportFrom(cs: seq<Challenge>, i: nat, total: int, awards: seq<int>)
    requires AllCanReport(cs) && i < |cs|
    requires |awards| >= |cs| - i
    ensures Run(cs, Progress(i, total, None), awards) ==
      Progress(|cs| - 1, total + Sum(awards[..|cs| - i]), Some(total + Sum(awards[..|cs| - i])))
    decreases |cs| - i
  {
    var p := Progress(i, total, None);
    assert CanReport(cs[i]);
    var n := |cs| - i;
    assert awards[..n][0] == awards[0] && awards[..n][1..] == awards[1..][..n - 1];
    if i + 1 < |cs| {
      RunAllReportFrom(cs, i + 1, total + awards[0], awards[1..]);
    } else {
      assert awards[..n] == [awards[0]];
    }
  }

  /** A whole session of challenges that can report reports the sum of its step awards. */
  lemma RunAllReport(cs: seq<Challenge>, awards: seq<int>)
    requires AllCanReport(cs) && |cs| > 0
    requires |awards| >= |cs|
    ensures Run(cs, Start, awards).reported == Some(Sum(awards[..|cs|]))
  {
    RunAllReportFrom(cs, 0, 0, awards);
  }

  /** Before the last challenge reports, nothing is reported. */
  lemma {:induction false} RunFewer(cs: seq<Challenge>, i: nat, total: int, awards: seq<int>)
    requires i < |cs|
    requires |awards| < |cs| - i
    ensures Run(cs, Progress(i, total, None), awards).reported == None
    decreases |awards|
  {
    var p := Progress(i, total, None);
    if awards == [] || !CanReport(cs[i]) {
    } else {
      RunFewer(cs, i + 1, total + awards[0], awards[1..]);
    }
  }

  /** A challenge that cannot report blocks the session: it never gets past it and never reports. */
  lemma {:induction false} RunBlocked(cs: seq<Challenge>, i: nat, total: int, awards: seq<int>, k: nat)
    requires i <= k < |cs| && !CanReport(cs[k])
    ensures Run(cs, Progress(i, total, None), awards).reported == None
    ensures Run(cs, Progress(i, total, None), awards).index <= k
    decreases |awards|
  {
    if awards == [] || !CanReport(cs[i]) {
    } else {
      assert i < k;
      RunBlocked(cs, i + 1, total + awards[0], awards[1..], k);
    }
  }

  /** `((challengeIndex + 1) / challenges.length) * 100` */
  function ProgressPct(index: nat, count: nat): (r: real)
    requires index < count
    ensures 0.0 < r <= 100.0
    ensures r == 100.0 <==> index == count - 1
  {
    var f := (index + 1) as real / count as real;
    assert f * count as real == (index + 1) as real;
    f * 100.0
  }

  /** `cs` holds the decoding of each item, in order. */
  predicate Decoded(items: seq<Json>, decode: Json -> Challenge, cs: seq<Challenge>)
  {
    |cs| == |items| && forall k :: 0 <= k < |items| ==> cs[k] == decode(items[k])
  }

  /** What the container renders. */
  datatype Screen =
    | Spinner                         // "Building Your Lesson..."
    | ErrorMessage(e: SessionError)
    | Blank                           // `null`
    | ChallengeScreen(view: ChallengeView)

  /** `CohereSimulationContainer`. */
  class SessionContainer {
    var sessionData: Option<seq<Challenge>>
    var challengeIndex: nat
    var totalXp: int
    var isLoading: bool
    var error: Option<SessionError>
    /** The total handed to `onComplete`, once it has been. */
    var reported: Option<int>

    ghost predicate Valid()
      reads this
    {
      (isLoading ==> sessionData.None? && error.None? && challengeIndex == 0 && totalXp == 0) &&
      (!isLoading ==> sessionData.Some? != error.Some?) &&
      (sessionData.Some? && |sessionData.value| > 0 ==> challengeIndex < |sessionData.value|) &&
      (sessionData.None? || |sessionData.value| == 0 ==> challengeIndex == 0 && reported.None?)
    }

    function Current(): Progress
      reads this
    {
      Progress(challengeIndex, totalXp, reported)
    }

    /** Mount: loading, no error, first challenge, no XP. */
    constructor()
      ensures Valid()
      ensures isLoading && error.None? && sessionData.None?
      ensures Current() == Start
    {
      sessionData, challengeIndex, totalXp := None, 0, 0;
      isLoading, error, reported := true, None, None;
    }

    /**
     * The request settles: an accepted session keeps its challenge array (each
     * element read by `decode`), any error is shown instead.
     */
    method Resolve(r: Result<Json, SessionError>, decode: Json -> Challenge)
      requires Valid() && isLoading
      requires r.Ok? ==> HasChallengesArray(r.value)
      modifies this
      ensures Valid()
      ensures !isLoading && Current() == Start
      ensures r.Err? ==> error == Some(r.error) && sessionData.None?
      ensures r.Ok? ==> error.None? && sessionData.Some?
      ensures r.Ok? ==> Decoded(Get(r.value, "challenges").value.items, decode, sessionData.value)
    {
      if r.Ok? {
        var items := Get(r.value, "challenges").value.items;
        sessionData := Some(seq(|items|, k requires 0 <= k < |items| => decode(items[k])));
      } else {
        error := Some(r.error);
      }
      isLoading := false;
    }

    /**
     * The rendered screen, tested in the source's order; reading a challenge
     * past the end of the array (only possible when it is empty) throws, and
     * so does a calculator without an input array.
     */
    function Render(): (s: Screen)
      reads this
      ensures s == Spinner <==> isLoading
      ensures s.ErrorMessage? <==> !isLoading && error.Some?
      ensures s.ChallengeScreen? ==> sessionData.Some?
      ensures s == ChallengeScreen(RenderFault) <==>
        !isLoading && error.None? && sessionData.Some? &&
        (challengeIndex >= |sessionData.value| ||
         (sessionData.value[challengeIndex].Calculator? && sessionData.value[challengeIndex].inputs.None?))
      ensures s == ChallengeScreen(Live) ==>
        challengeIndex < |sessionData.value| && View(sessionData.value[challengeIndex]) == Live
    {
      if isLoading then Spinner
      else if error.Some? then ErrorMessage(error.value)
      else if sessionData.None? then Blank
      else if challengeIndex >= |sessionData.value| then ChallengeScreen(RenderFault)
      else ChallengeScreen(View(sessionData.value[challengeIndex]))
    }


    /**
     * A live sub-machine reports its XP: the container takes exactly the step
     * of `StepComplete` on its current progress.
     */
    method HandleStepComplete(xp: int)
      requires Valid() && Render() == ChallengeScreen(Live) && reported.None?
      modifies this
      ensures Valid() && sessionData.Some?
      ensures Current() == StepComplete(old(Current()), |sessionData.value|, xp)
      ensures sessionData == old(sessionData) && error == old(error) && isLoading == old(isLoading)
    {
      totalXp := totalXp + xp;
      if challengeIndex < |sessionData.value| - 1 {
        challengeIndex := challengeIndex + 1;
      } else {
        reported := Some(totalXp);
      }
    }
  }

  // ---------------------------------------------------------------------------
  // The modal

  datatype ModalStep = Video | Simulation

  /** `LearningModal`: the video step, then the session. */
  class LearningModal {
    var step: ModalStep

    constructor()
      ensures step == Video
    {
      step := Video;
    }

    /** "I'm ready for the challenge!" */
    method Ready()
      modifies this
      ensures step == Simulation
    {
      step := Simulation;
    }
  }
}
