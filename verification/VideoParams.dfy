/** Parameters of the OminiLink video models (internal/infra/ominilinkvideo/constraints.go and
    models.go). */
module VideoParams {
  import opened GoStrings
  import opened Options

  const MAX_INT := 0x7FFF_FFFF_FFFF_FFFF

  /** Go's `int`. */
  predicate IsInt(x: int) { -MAX_INT - 1 <= x <= MAX_INT }

  /** Arithmetic on `int` wraps around. */
  function Wrap(x: int): (r: int)
    ensures IsInt(r) && (IsInt(x) ==> r == x)
  {
    (x + MAX_INT + 1) % (2 * (MAX_INT + 1)) - MAX_INT - 1
  }

  /** `strings.ToLower`, as far as its result is looked at: every other letter outside ASCII
      stays outside ASCII. */
  function LowerChar(c: char): char {
    if 'A' <= c <= 'Z' then (c as int + 32) as char
    else if c == '\U{0130}' then 'i'
    else if c == '\U{212A}' then 'k'
    else c
  }

  function Lower(s: string): (r: string)
    ensures |r| == |s| && forall i :: 0 <= i < |r| ==> r[i] == LowerChar(s[i])
  {
    seq(|s|, i requires 0 <= i < |s| => LowerChar(s[i]))
  }

  function Plain(s: string): string { Lower(TrimSpace(s)) }

  // Models

  datatype Family = Seedance | Veo | Kling | Vidu | Unknown

  function FamilyOf(model: string): Family {
    var m := Plain(model);
    if HasPrefix(m, "dreamina-seedance") then Seedance
    else if HasPrefix(m, "veo-3.1") then Veo
    else if HasPrefix(m, "kling-") then Kling
    else if HasPrefix(m, "viduq3") then Vidu
    else Unknown
  }

  /** `klingAPIVersion(model) == "v3.0"`. */
  predicate KlingThree(model: string) {
    Plain(model) in {"kling-v3", "kling-v3-omni", "kling-video-o1"}
  }

  predicate MiniOrFast(model: string) {
    HasSuffix(Plain(model), "-mini") || HasSuffix(Plain(model), "-fast")
  }

  // Snapping

  function AbsInt(v: int): int { if v < 0 then Wrap(-v) else v }

  /** Best candidate and its distance after looking at all candidates. */
  function Best(value: int, allowed: seq<int>): (int, int)
    requires allowed != []
  {
    var last := allowed[|allowed| - 1];
    var (best, bestDist) := if |allowed| == 1 then (allowed[0], MAX_INT) else Best(value, allowed[..|allowed| - 1]);
    var dist := AbsInt(Wrap(value - last));
    if dist < bestDist then (last, dist) else (best, bestDist)
  }

  function Snap(value: int, allowed: seq<int>): int {
    if allowed == [] then value else Best(value, allowed).0
  }

  method SnapToAllowed(value: int, allowed: seq<int>) returns (best: int)
    ensures best == Snap(value, allowed)
  {
    if |allowed| == 0 { return value; }
    best := allowed[0];
    var bestDist := MAX_INT;
    for i := 0 to |allowed|
      invariant i == 0 ==> best == allowed[0] && bestDist == MAX_INT
      invariant i > 0 ==> (best, bestDist) == Best(value, allowed[..i])
    {
      var candidate := allowed[i];
      var dist := AbsInt(Wrap(value - candidate));
      assert allowed[..i + 1][..i] == allowed[..i];
      if dist < bestDist {
        bestDist := dist;
        best := candidate;
      }
    }
    assert allowed[..|allowed|] == allowed;
  }

  function Distance(a: int, b: int): nat { if a < b then b - a else a - b }

  /** Every distance is one that `int` can hold. */
  predicate InReach(value: int, allowed: seq<int>) {
    forall i :: 0 <= i < |allowed| ==> Distance(value, allowed[i]) <= MAX_INT
  }

  /** The first of the closest candidates. */
  predicate EarliestClosest(value: int, allowed: seq<int>, i: int) {
    && 0 <= i < |allowed|
    && (forall j :: 0 <= j < |allowed| ==> Distance(value, allowed[i]) <= Distance(value, allowed[j]))
    && (forall j :: 0 <= j < i ==> Distance(value, allowed[i]) < Distance(value, allowed[j]))
  }

  function WrappedDistance(value: int, candidate: int): int { AbsInt(Wrap(value - candidate)) }

  /** The first candidate at minimal wrapped distance. */
  predicate EarliestMinimum(value: int, allowed: seq<int>, i: int) {
    && 0 <= i < |allowed|
    && (forall j :: 0 <= j < |allowed| ==> WrappedDistance(value, allowed[i]) <= WrappedDistance(value, allowed[j]))
    && (forall j :: 0 <= j < i ==> WrappedDistance(value, allowed[i]) < WrappedDistance(value, allowed[j]))
  }

  lemma {:induction false} BestIsMinimal(value: int, allowed: seq<int>) returns (i: int)
    requires allowed != []
    ensures EarliestMinimum(value, allowed, i)
    ensures Best(value, allowed) == (allowed[i], WrappedDistance(value, allowed[i]))
  {
    i := |allowed| - 1;
    if |allowed| > 1 {
      var before := allowed[..|allowed| - 1];
      var h := BestIsMinimal(value, before);
      assert before[h] == allowed[h];
      if WrappedDistance(value, allowed[i]) >= WrappedDistance(value, allowed[h]) { i := h; }
    }
  }

  /** For every list and every integer: the earliest element at minimal wrapped distance. */
  lemma SnapIsEarliestMinimum(value: int, allowed: seq<int>)
    requires allowed != []
    ensures exists i :: EarliestMinimum(value, allowed, i) && Snap(value, allowed) == allowed[i]
  {
    var i := BestIsMinimal(value, allowed);
  }

  lemma DistanceWraps(value: int, candidate: int)
    ensures Distance(value, candidate) <= MAX_INT ==> WrappedDistance(value, candidate) == Distance(value, candidate)
    ensures IsInt(value) && IsInt(candidate) && Distance(value, candidate) > MAX_INT ==>
              WrappedDistance(value, candidate) ==
              if Distance(value, candidate) == MAX_INT + 1 then -(MAX_INT + 1)
                  else 2 * (MAX_INT + 1) - Distance(value, candidate)
  {
  }

  /** No candidate beyond reach wins over the closest one, `j`, by wrapping around. */
  predicate Undisturbed(value: int, allowed: seq<int>, j: int)
    requires 0 <= j < |allowed|
  {
    var d := Distance(value, allowed[j]);
    if d <= MAX_INT then
      forall k :: 0 <= k < |allowed| && Distance(value, allowed[k]) > MAX_INT ==>
        var e := Distance(value, allowed[k]);
        e != MAX_INT + 1 && (d + e < 2 * (MAX_INT + 1) || (d + e == 2 * (MAX_INT + 1) && j < k))
    else d == MAX_INT + 1 || forall k :: 0 <= k < |allowed| ==> Distance(value, allowed[k]) == d
  }

  predicate AllInts(allowed: seq<int>) { forall i :: 0 <= i < |allowed| ==> IsInt(allowed[i]) }

  /** Exactly when that is the earliest element at minimal distance. */
  lemma SnapIsClosestExactlyWhen(value: int, allowed: seq<int>, j: int)
    requires IsInt(value) && AllInts(allowed) && EarliestClosest(value, allowed, j)
    ensures Snap(value, allowed) == allowed[j] <==> Undisturbed(value, allowed, j)
  {
    var i := BestIsMinimal(value, allowed);
    forall k | 0 <= k < |allowed| { DistanceWraps(value, allowed[k]); }
    if Undisturbed(value, allowed, j) {
      UndisturbedIsMinimal(value, allowed, i, j);
    } else {
      DisturbedIsBeaten(value, allowed, j);
    }
  }

  lemma UndisturbedIsMinimal(value: int, allowed: seq<int>, i: int, j: int)
    requires IsInt(value) && AllInts(allowed) && EarliestClosest(value, allowed, j) &&
             EarliestMinimum(value, allowed, i)
    requires Undisturbed(value, allowed, j)
    ensures i == j
  {
    DistanceWraps(value, allowed[i]);
    DistanceWraps(value, allowed[j]);
  }

  lemma DisturbedIsBeaten(value: int, allowed: seq<int>, j: int)
    requires IsInt(value) && AllInts(allowed) && EarliestClosest(value, allowed, j) && !Undisturbed(value, allowed, j)
    ensures exists k :: 0 <= k < |allowed| && allowed[k] != allowed[j] &&
              (WrappedDistance(value, allowed[k]) < WrappedDistance(value, allowed[j]) ||
               (k < j && WrappedDistance(value, allowed[k]) == WrappedDistance(value, allowed[j])))
  {
    var d := Distance(value, allowed[j]);
    DistanceWraps(value, allowed[j]);
    if d <= MAX_INT {
      var k :| 0 <= k < |allowed| && Distance(value, allowed[k]) > MAX_INT &&
        !(Distance(value, allowed[k]) != MAX_INT + 1 &&
          (d + Distance(value, allowed[k]) < 2 * (MAX_INT + 1) ||
              (d + Distance(value, allowed[k]) == 2 * (MAX_INT + 1) && j < k)));
      DistanceWraps(value, allowed[k]);
    } else {
      var k :| 0 <= k < |allowed| && Distance(value, allowed[k]) != d;
      DistanceWraps(value, allowed[k]);
    }
  }

  /** In particular when every distance is one that an integer can hold. */
  lemma SnapIsEarliestClosest(value: int, allowed: seq<int>)
    requires allowed != [] && InReach(value, allowed)
    ensures exists i :: EarliestClosest(value, allowed, i) && Snap(value, allowed) == allowed[i]
  {
    var i := BestIsMinimal(value, allowed);
    forall k | 0 <= k < |allowed| { DistanceWraps(value, allowed[k]); }
    assert EarliestClosest(value, allowed, i);
  }

  predicate Increasing(allowed: seq<int>) {
    forall i, j :: 0 <= i < j < |allowed| ==> allowed[i] < allowed[j]
  }

  predicate SnapsToClosest(value: int, allowed: seq<int>, j: int) {
    EarliestClosest(value, allowed, j) && Undisturbed(value, allowed, j)
  }

  /** For increasing lists it is monotone between any two values that are not disturbed. */
  lemma SnapIsMonotone(a: int, b: int, allowed: seq<int>, i: int, j: int)
    requires IsInt(a) && IsInt(b) && AllInts(allowed) && Increasing(allowed) && a <= b
    requires SnapsToClosest(a, allowed, i) && SnapsToClosest(b, allowed, j)
    ensures Snap(a, allowed) <= Snap(b, allowed)
  {
    SnapIsClosestExactlyWhen(a, allowed, i);
    SnapIsClosestExactlyWhen(b, allowed, j);
  }

  // Normalisation

  datatype Resolution = P480 | P540 | P720 | P1080 | K4

  function Name(r: Resolution): string {
    match r
    case P480 => "480p"
    case P540 => "540p"
    case P720 => "720p"
    case P1080 => "1080p"
    case K4 => "4k"
  }

  /** The resolution that a text names, in any letter case and with white space around it. */
  function Read(text: string): Option<Resolution> {
    var res := Plain(text);
    if res == "480p" then Some(P480)
    else if res == "540p" then Some(P540)
    else if res == "720p" then Some(P720)
    else if res == "1080p" then Some(P1080)
    else if res == "4k" then Some(K4)
    else None
  }

  function VeoResolution(model: string, res: Option<Resolution>): Resolution {
    match res
    case Some(P1080) => P1080
    case Some(K4) => if Contains(model, "lite") then P1080 else K4
    case _ => P720
  }

  function SeedanceResolution(model: string, res: Option<Resolution>): Resolution {
    match res
    case Some(P480) => P480
    case Some(P1080) => if MiniOrFast(model) then P720 else P1080
    case Some(K4) => if MiniOrFast(model) then P720 else K4
    case _ => P720
  }

  function KlingResolution(model: string, res: Option<Resolution>): Resolution {
    match res
    case Some(K4) => if KlingThree(model) then K4 else P1080
    case Some(P1080) => P1080
    case _ => P720
  }

  function ViduResolution(model: string, res: Option<Resolution>): Resolution {
    if Contains(model, "pro-fast") then (if res == Some(P1080) then P1080 else P720)
    else match res
      case Some(P540) => P540
      case Some(P1080) => P1080
      case _ => P720
  }

  function ResolutionFor(model: string, res: Option<Resolution>): Resolution {
    match FamilyOf(model)
    case Veo => VeoResolution(model, res)
    case Seedance => SeedanceResolution(model, res)
    case Kling => KlingResolution(model, res)
    case Vidu => ViduResolution(model, res)
    case Unknown => P720
  }

  function Clamp(v: int, min: int, max: int): int { if v < min then min else if v > max then max else v }

  function VeoDuration(duration: int): int { if duration <= 5 then 4 else if duration <= 7 then 6 else 8 }

  function KlingDuration(model: string, duration: int): int {
    if KlingThree(model) then Clamp(duration, 3, 15) else Snap(duration, [5, 10])
  }

  function DurationFor(model: string, duration: int): int {
    match FamilyOf(model)
    case Veo => VeoDuration(duration)
    case Seedance => Clamp(duration, 4, 15)
    case Kling => KlingDuration(model, duration)
    case Vidu => Clamp(duration, 1, 16)
    case Unknown => duration
  }

  predicate SeedanceRatio(aspect: string) {
    aspect in {"16:9", "4:3", "1:1", "3:4", "9:16", "21:9", "adaptive"}
  }

  function AspectFor(model: string, aspect: string): string {
    match FamilyOf(model)
    case Veo => if TrimSpace(aspect) == "16:9" || TrimSpace(aspect) == "4:3" then "16:9" else "9:16"
    case Seedance => if SeedanceRatio(TrimSpace(aspect)) then aspect else "3:4"
    case _ => aspect
  }

  /** The duration that is asked for: zero and negative ones stand for five seconds. */
  function Wanted(duration: int): int { if duration <= 0 then 5 else duration }

  function WantedAspect(aspect: string): string { if TrimSpace(aspect) == "" then "3:4" else TrimSpace(aspect) }

  datatype Params = Params(resolution: string, duration: int, aspect: string)

  function NormalizeParams(model: string, given: Params): Params {
    var m := Plain(model);
    Params(Name(ResolutionFor(m, Read(given.resolution))), DurationFor(m, Wanted(given.duration)),
        AspectFor(m, WantedAspect(given.aspect)))
  }

  // What a model accepts

  predicate AllowsResolution(model: string, r: Resolution) {
    match FamilyOf(model)
    case Veo => r == P720 || r == P1080 || (r == K4 && !Contains(Plain(model), "lite"))
    case Seedance => r == P480 || r == P720 || ((r == P1080 || r == K4) && !MiniOrFast(model))
    case Kling => r == P720 || r == P1080 || (r == K4 && KlingThree(model))
    case Vidu => r == P720 || r == P1080 || (r == P540 && !Contains(Plain(model), "pro-fast"))
    case Unknown => r == P720
  }

  predicate AllowsDuration(model: string, d: int) {
    match FamilyOf(model)
    case Veo => d in {4, 6, 8}
    case Seedance => 4 <= d <= 15
    case Kling => if KlingThree(model) then 3 <= d <= 15 else d in {5, 10}
    case Vidu => 1 <= d <= 16
    case Unknown => 1 <= d
  }

  predicate AllowsAspect(model: string, aspect: string) {
    match FamilyOf(model)
    case Veo => aspect == "16:9" || aspect == "9:16"
    case Seedance => SeedanceRatio(aspect)
    case _ => aspect != "" && Trimmed(aspect)
  }

  predicate Accepts(model: string, p: Params) {
    && (exists r :: p.resolution == Name(r) && AllowsResolution(model, r))
    && AllowsDuration(model, p.duration) && AllowsAspect(model, p.aspect)
  }

  lemma PrefixesExclude(m: string)
    ensures HasPrefix(m, "veo-3.1") ==> !HasPrefix(m, "dreamina-seedance")
    ensures HasPrefix(m, "kling-") ==> !HasPrefix(m, "dreamina-seedance") && !HasPrefix(m, "veo-3.1")
    ensures HasPrefix(m, "viduq3") ==> !HasPrefix(m, "dreamina-seedance") && !HasPrefix(m, "veo-3.1")
    ensures HasPrefix(m, "viduq3") ==> !HasPrefix(m, "kling-")
  {
    if m != "" {
      assert HasPrefix(m, "dreamina-seedance") ==> m[0] == 'd';
      assert HasPrefix(m, "kling-") ==> m[0] == 'k';
    }
    if |m| > 1 {
      assert HasPrefix(m, "veo-3.1") ==> m[0] == 'v' && m[1] == 'e';
      assert HasPrefix(m, "viduq3") ==> m[0] == 'v' && m[1] == 'i';
    }
  }

  /** The accepted durations, by the prefix of the model's name. */
  lemma DurationsByPrefix(model: string, d: int)
    ensures var m := Plain(model);
      && (HasPrefix(m, "dreamina-seedance") ==> (AllowsDuration(model, d) <==> 4 <= d <= 15))
      && (HasPrefix(m, "veo-3.1") ==> (AllowsDuration(model, d) <==> d == 4 || d == 6 || d == 8))
      && (HasPrefix(m, "kling-") ==> (AllowsDuration(model, d) <==>
            if m in {"kling-v3", "kling-v3-omni", "kling-video-o1"} then 3 <= d <= 15 else d == 5 || d == 10))
      && (HasPrefix(m, "viduq3") ==> (AllowsDuration(model, d) <==> 1 <= d <= 16))
  {
    PrefixesExclude(Plain(model));
  }

  /** The accepted resolutions, by the prefix of the model's name. */
  lemma ResolutionsByPrefix(model: string, r: Resolution)
    ensures var m := Plain(model);
      && (HasPrefix(m, "dreamina-seedance") ==> (AllowsResolution(model, r) <==>
            if HasSuffix(m, "-mini") || HasSuffix(m, "-fast") then r == P480 || r == P720 else r != P540))
      && (HasPrefix(m, "veo-3.1") ==> (AllowsResolution(model, r) <==>
            r == P720 || r == P1080 || (r == K4 && !Contains(m, "lite"))))
      && (HasPrefix(m, "kling-") ==> (AllowsResolution(model, r) <==>
            r == P720 || r == P1080 || (r == K4 && m in {"kling-v3", "kling-v3-omni", "kling-video-o1"})))
      && (HasPrefix(m, "viduq3") ==> (AllowsResolution(model, r) <==>
            r == P720 || r == P1080 || (r == P540 && !Contains(m, "pro-fast"))))
  {
    PrefixesExclude(Plain(model));
  }

  lemma LowerKeepsSpace(c: char)
    ensures IsSpace(LowerChar(c)) <==> IsSpace(c)
    ensures LowerChar(LowerChar(c)) == LowerChar(c)
  {
  }

  lemma PlainIsIdempotent(s: string)
    ensures Plain(Plain(s)) == Plain(s)
    ensures Plain(TrimSpace(s)) == Plain(s)
  {
    var _, _ := TrimSpaceMeaning(s);
    var core := TrimSpace(s);
    TrimmedIsKept(core);
    forall c { LowerKeepsSpace(c); }
    TrimmedIsKept(Lower(core));
    assert Lower(Lower(core)) == Lower(core);
  }

  lemma ReadName(r: Resolution)
    ensures Read(Name(r)) == Some(r)
  {
    TrimmedIsKept(Name(r));
    assert Lower(Name(r)) == Name(r);
  }

  lemma FamilyIgnoresSpelling(model: string)
    ensures FamilyOf(Plain(model)) == FamilyOf(model) && Plain(Plain(model)) == Plain(model)
    ensures KlingThree(Plain(model)) == KlingThree(model) && MiniOrFast(Plain(model)) == MiniOrFast(model)
  {
    PlainIsIdempotent(model);
  }

  // Resolutions

  lemma ResolutionIsAllowed(model: string, res: Option<Resolution>)
    ensures AllowsResolution(model, ResolutionFor(Plain(model), res))
  {
    FamilyIgnoresSpelling(model);
  }

  lemma AllowedResolutionIsKept(model: string, r: Resolution)
    requires AllowsResolution(model, r)
    ensures ResolutionFor(Plain(model), Some(r)) == r
  {
    FamilyIgnoresSpelling(model);
  }

  /** A resolution that the model accepts is kept. Any other, and any text that names none,
      becomes 720p, except that 4k becomes 1080p for Veo and Kling. */
  lemma ResolutionIsKeptOrReplaced(model: string, res: Option<Resolution>)
    ensures ResolutionFor(Plain(model), res) ==
            if res.Some? && AllowsResolution(model, res.value) then res.value
            else if res == Some(K4) && (FamilyOf(model) == Veo || FamilyOf(model) == Kling) then P1080
            else P720
  {
    FamilyIgnoresSpelling(model);
    match FamilyOf(model) {
      case Veo => assert ResolutionFor(Plain(model), res) == VeoResolution(Plain(model), res);
      case Seedance => assert ResolutionFor(Plain(model), res) == SeedanceResolution(Plain(model), res);
      case Kling => assert ResolutionFor(Plain(model), res) == KlingResolution(Plain(model), res);
      case Vidu => assert ResolutionFor(Plain(model), res) == ViduResolution(Plain(model), res);
      case Unknown =>
    }
  }

  // Durations

  lemma SnapFiveTen(d: int)
    requires 1 <= d <= MAX_INT
    ensures Snap(d, [5, 10]) == if d <= 7 then 5 else 10
  {
    SnapIsEarliestClosest(d, [5, 10]);
    var i :| EarliestClosest(d, [5, 10], i) && Snap(d, [5, 10]) == [5, 10][i];
    assert Distance(d, [5, 10][0]) == Distance(d, 5) && Distance(d, [5, 10][1]) == Distance(d, 10);
  }

  /** The duration is the nearest one that the model accepts, and the shorter of two nearest. */
  lemma NearestDuration(model: string, wanted: int, other: int)
    requires 1 <= wanted <= MAX_INT
    ensures AllowsDuration(model, DurationFor(Plain(model), wanted)) && IsInt(DurationFor(Plain(model), wanted))
    ensures AllowsDuration(model, other) ==>
              var d := DurationFor(Plain(model), wanted);
              Distance(wanted, d) < Distance(wanted, other) ||
                  (Distance(wanted, d) == Distance(wanted, other) && d <= other)
  {
    FamilyIgnoresSpelling(model);
    SnapFiveTen(wanted);
  }

  /** Asking for more never gives less. */
  lemma DurationIsMonotone(model: string, a: Params, b: Params)
    requires IsInt(a.duration) && IsInt(b.duration) && 1 <= a.duration <= b.duration
    ensures NormalizeParams(model, a).duration <= NormalizeParams(model, b).duration
  {
    var d, e := DurationFor(Plain(model), a.duration), DurationFor(Plain(model), b.duration);
    NearestDuration(model, a.duration, e);
    NearestDuration(model, b.duration, d);
  }

  // Aspect ratios

  lemma AspectIsAllowed(model: string, aspect: string)
    requires aspect != "" && Trimmed(aspect)
    ensures AllowsAspect(model, AspectFor(Plain(model), aspect))
  {
    FamilyIgnoresSpelling(model);
    TrimmedIsKept(aspect);
  }

  lemma AllowedAspectIsKept(model: string, aspect: string)
    requires AllowsAspect(model, aspect)
    ensures aspect != "" && Trimmed(aspect) && AspectFor(Plain(model), aspect) == aspect
  {
    FamilyIgnoresSpelling(model);
    TrimmedIsKept(aspect);
  }

  /** An aspect ratio that the model accepts is kept. Otherwise Seedance takes 3:4, and Veo the
      wide format for 4:3 and the tall one for the rest. */
  lemma AspectIsKeptOrReplaced(model: string, aspect: string)
    requires aspect != "" && Trimmed(aspect)
    ensures AspectFor(Plain(model), aspect) ==
            if AllowsAspect(model, aspect) then aspect
            else if FamilyOf(model) == Seedance then "3:4"
            else if aspect == "4:3" then "16:9" else "9:16"
  {
    FamilyIgnoresSpelling(model);
    TrimmedIsKept(aspect);
  }

  // Together

  lemma NormalizedIsAccepted(model: string, given: Params)
    requires IsInt(given.duration)
    ensures Accepts(model, NormalizeParams(model, given))
  {
    ResolutionIsAllowed(model, Read(given.resolution));
    NearestDuration(model, Wanted(given.duration), 0);
    var _, _ := TrimSpaceMeaning(given.aspect);
    AspectIsAllowed(model, WantedAspect(given.aspect));
  }

  lemma AcceptedIsKept(model: string, p: Params)
    requires IsInt(p.duration) && Accepts(model, p)
    ensures NormalizeParams(model, p) == p
  {
    var r :| p.resolution == Name(r) && AllowsResolution(model, r);
    ReadName(r);
    AllowedResolutionIsKept(model, r);
    NearestDuration(model, p.duration, p.duration);
    AllowedAspectIsKept(model, p.aspect);
    TrimmedIsKept(p.aspect);
  }

  /** Normalisation leaves exactly the accepted parameters alone, so it is idempotent. */
  lemma KeptExactlyWhenAccepted(model: string, p: Params)
    requires IsInt(p.duration)
    ensures NormalizeParams(model, p) == p <==> Accepts(model, p)
    ensures NormalizeParams(model, NormalizeParams(model, p)) == NormalizeParams(model, p)
  {
    NormalizedIsAccepted(model, p);
    NearestDuration(model, Wanted(p.duration), 0);
    AcceptedIsKept(model, NormalizeParams(model, p));
    if Accepts(model, p) { AcceptedIsKept(model, p); }
  }

  /** Letter case and surrounding white space make no difference. */
  lemma SpellingDoesNotMatter(model: string, given: Params)
    ensures NormalizeParams(Plain(model), Params(Plain(given.resolution), given.duration, TrimSpace(given.aspect))) ==
            NormalizeParams(model, given)
  {
    PlainIsIdempotent(model);
    PlainIsIdempotent(given.resolution);
    TrimmedIsKept(given.aspect);
  }
}
