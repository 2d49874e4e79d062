/** Field-level helpers of the catalog normaliser: start time, display name, live flag and link. */
module EventFields {
  import opened Wrappers
  import opened Strings
  import opened Domain
  import opened Catalog
  import Feed

  /** `getStartTime`: a blank start time is refused before the time parser is consulted. */
  function StartTime(s: string, parseTime: string -> Option<int>): (r: Result<int, TransformError>)
    ensures IsBlank(s) ==> r == Err(ParseTime)
    ensures !IsBlank(s) ==> (r.Ok? <==> parseTime(s).Some?) && (r.Ok? ==> r.value == parseTime(s).value)
    ensures r.Err? ==> r.error == ParseTime
  {
    if IsBlank(s) then Err(ParseTime)
    else match parseTime(s)
      case None => Err(ParseTime)
      case Some(t) => Ok(t)
  }

  /** The event is a match between its first two participants rather than a field of competitors. */
  predicate IsMatch(pts: seq<Participant>) {
    |pts| > 0 && pts[0].kind != Competitor
  }

  /** `getName`: a match is named "home vs away"; any other event keeps the feed's name. */
  function GetName(name: string, pts: seq<Participant>): (r: string)
    requires IsMatch(pts) ==> |pts| >= 2
    ensures !IsMatch(pts) ==> r == name
    ensures IsMatch(pts) ==>
      var home := pts[0].name;
      && |r| == |home| + 4 + |pts[1].name|
      && r[..|home|] == home
      && r[|home|..|home| + 4] == " vs "
      && r[|home| + 4..] == pts[1].name
  {
    if IsMatch(pts) then pts[0].name + " vs " + pts[1].name else name
  }

  /** `isLive`: an absent flag means not live; a present one must parse as a boolean. */
  function IsLive(isStarted: string): (r: Result<bool, TransformError>)
    ensures isStarted == "" ==> r == Ok(false)
    ensures isStarted != "" ==> (r.Ok? <==> ParseBool(isStarted).Some?) && (r.Ok? ==> r.value == ParseBool(isStarted).value)
    ensures r.Err? ==> r.error == ParseBoolFailed
  {
    if isStarted == "" then Ok(false)
    else match ParseBool(isStarted)
      case None => Err(ParseBoolFailed)
      case Some(b) => Ok(b)
  }

  /** What normalisation does to one character. */
  function LinkChar(c: char): char {
    if c == ' ' || c == '/' then '-' else LowerChar(c)
  }

  /** `normalizeLinkPart`: spaces and slashes become dashes, then the text is lower-cased. */
  function NormalizeLinkPart(part: string): (r: string)
    ensures |r| == |part|
    ensures forall i :: 0 <= i < |r| ==> r[i] != ' ' && r[i] != '/' && !IsUpperAscii(r[i])
    ensures forall i :: 0 <= i < |part| ==> r[i] == LinkChar(part[i])
  {
    ToLower(ReplaceChar(ReplaceChar(part, ' ', '-'), '/', '-'))
  }

  /**
   * `getLink`: `https://sports.ladbrokes.com/event/` followed by the normalised
   * category, class, type and event name, the raw event id and `all-markets`,
   * all separated by slashes; written here as the path's segments joined by `/`.
   */
  function Link(ev: Feed.Event): string {
    Join(LinkSegments(ev), "/")
  }

  const Host := "sports.ladbrokes.com"

  /** The path segments of an event's link. */
  function LinkSegments(ev: Feed.Event): seq<string> {
    ["https:", "", Host, "event",
     NormalizeLinkPart(ev.categoryName), NormalizeLinkPart(ev.className),
     NormalizeLinkPart(ev.typeName), NormalizeLinkPart(ev.name), ev.id, "all-markets"]
  }

  // ---- properties ----

  /** Normalising a normalised part changes nothing. */
  lemma NormalizeLinkPartIdempotent(part: string)
    ensures NormalizeLinkPart(NormalizeLinkPart(part)) == NormalizeLinkPart(part)
  {
    var once := NormalizeLinkPart(part);
    var twice := NormalizeLinkPart(once);
    forall i | 0 <= i < |once|
      ensures twice[i] == once[i]
    {
      assert LowerChar(once[i]) == once[i];
    }
  }

  /** As long as the event id holds no slash, splitting the link on `/` gives back exactly its segments, each part's normalised form among them. */
  lemma LinkSplits(ev: Feed.Event)
    requires forall i :: 0 <= i < |ev.id| ==> ev.id[i] != '/'
    ensures Split(Link(ev), "/") == LinkSegments(ev)
  {
    var segs := LinkSegments(ev);
    forall k | 0 <= k < |segs|
      ensures !Contains(segs[k], "/")
    {
      LacksChar(segs[k], '/');
    }
    SplitJoinClean(segs, "/");
  }
}
