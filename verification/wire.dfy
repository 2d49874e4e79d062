/**
 * Decoder for the push (long-poll) response format. A body is a run of records,
 * each introduced by the major separator `MSEVENT0` or the minor one `MsEVENT0`;
 * the separator swallows the leading `0` of the record's event id. Within a
 * record, fields sit at fixed offsets:
 *
 *   [0, 9)    event id            [21, 26)  update-type tag
 *   [9, 13)   `!!!!`              [26, 36)  update id
 *   [13, 19)  continuation part   [36, 48)  filler
 *   [19, 21)  filler              [48, ..)  JSON payload
 *
 * The helpers slice at these offsets and, like the Go code, require records long
 * enough for the slice. `Decode`, which composes them into one call, is a
 * reconstruction (see README.md).
 */
module Wire {
  import opened Wrappers
  import opened Strings
  import opened UpdateTypes
  import Feed

  const MajorSeparator := "MSEVENT0"
  const MinorSeparator := "MsEVENT0"
  const IdLength := 10
  const RequestBodyPartLength := 6
  const UpdateTypeLength := 5

  const UpdateTypeStart := IdLength + 4 + RequestBodyPartLength + 2 - 1
  const UpdateIdStart := IdLength + 4 + RequestBodyPartLength + 2 + UpdateTypeLength - 1
  const UpdateDataStart := IdLength + 4 + RequestBodyPartLength + 2 + UpdateTypeLength + IdLength + 12 - 1
  const RequestBodyPartsStart := IdLength + 4 - 1

  const DefaultLastRequestBodyPart := "!!!!!0"

  const SuspendedStatus := "S"
  const NotDisplayed := "N"

  datatype WireError = UnknownUpdateType(tag: string) | UnsupportedKind | ShortRecord

  /** One decoded record: the id it refers to and its raw JSON payload. */
  datatype UpdateData = UpdateData(id: string, rawData: string)

  /** A decoded response: records grouped by kind, plus the two continuation fragments. */
  datatype Update = Update(data: map<UpdateKind, seq<UpdateData>>, requestBodyParts: (string, string))

  lemma Offsets()
    ensures UpdateTypeStart == 21 && UpdateIdStart == 26 && UpdateDataStart == 48 && RequestBodyPartsStart == 13
  {
  }

  // ---- status predicates on decoded payloads ----

  predicate IsEventFinished(u: Feed.EventUpdate) {
    u.status == SuspendedStatus && u.displayed == NotDisplayed
  }

  predicate IsMarketSuspended(u: Feed.MarketUpdate) {
    u.status == SuspendedStatus
  }

  predicate IsMarketRemoved(u: Feed.MarketUpdate) {
    u.status == SuspendedStatus && u.displayed == NotDisplayed
  }

  predicate IsSelectionSuspended(u: Feed.SelectionUpdate) {
    u.status == SuspendedStatus
  }

  /** A removed market is always a suspended one; removal additionally needs "not displayed". */
  lemma RemovedImpliesSuspended(u: Feed.MarketUpdate)
    ensures IsMarketRemoved(u) ==> IsMarketSuspended(u)
    ensures IsMarketRemoved(u) <==> IsMarketSuspended(u) && u.displayed == "N"
  {
  }

  // ---- splitting a body into records ----

  /** Each piece split on the minor separator, the results concatenated in order. */
  function SplitEach(pieces: seq<string>): (r: seq<string>)
    ensures |r| >= |pieces|
  {
    if |pieces| == 0 then [] else Split(pieces[0], MinorSeparator) + SplitEach(pieces[1..])
  }

  /** The raw records of a body: split on the major, then the minor separator, dropping the leading piece. */
  function SplitRawData(body: string): seq<string> {
    SplitEach(Split(body, MajorSeparator))[1..]
  }

  // ---- fixed-offset field readers ----

  function GetUpdateType(rec: string): (r: Result<UpdateKind, WireError>)
    requires |rec| >= UpdateTypeStart + UpdateTypeLength
    ensures r.Ok? <==> rec[21..26] in Tags
    ensures r.Ok? ==> r.value == Tags[rec[21..26]] && r.value != EventKind && r.value != UnknownKind
    ensures r.Err? ==> r.error == UnknownUpdateType(rec[21..26])
  {
    var tag := rec[UpdateTypeStart..UpdateTypeStart + UpdateTypeLength];
    match KindOf(tag)
    case Some(k) => Ok(k)
    case None => Err(UnknownUpdateType(tag))
  }

  /** The nine-character event id at the head of a record. */
  function GetEventId(rec: string): (r: string)
    requires |rec| >= IdLength - 1
    ensures |r| == 9 && r <= rec
  {
    rec[..IdLength - 1]
  }

  /** The update id: ten characters, or the last nine for the event and market kinds. */
  function GetUpdateId(rec: string, kind: UpdateKind): (r: string)
    requires |rec| >= UpdateIdStart + IdLength
    ensures kind == EventKind || kind == MarketKind ==> r == rec[27..36]
    ensures kind != EventKind && kind != MarketKind ==> r == rec[26..36]
  {
    if kind == EventKind || kind == MarketKind then rec[UpdateIdStart + 1..UpdateIdStart + IdLength]
    else rec[UpdateIdStart..UpdateIdStart + IdLength]
  }

  /** The id a record's payload refers to, chosen by kind; the unknown kind is an error. */
  function GetUpdateDataId(rec: string, kind: UpdateKind): (r: Result<string, WireError>)
    requires |rec| >= UpdateIdStart + IdLength
    ensures kind == EventKind ==> r == Ok(rec[..9])
    ensures kind == MarketKind ==> r == Ok(rec[27..36])
    ensures kind == SelectionKind || kind == PriceKind ==> r == Ok(rec[26..36])
    ensures kind == UnknownKind ==> r.Err?
  {
    match kind
    case EventKind => Ok(GetEventId(rec))
    case SelectionKind | PriceKind | MarketKind => Ok(GetUpdateId(rec, kind))
    case UnknownKind => Err(UnsupportedKind)
  }

  function GetUpdateData(rec: string): (r: string)
    requires |rec| >= UpdateDataStart
    ensures rec == rec[..48] + r
  {
    rec[UpdateDataStart..]
  }

  function RequestBodyPart(rec: string): (r: string)
    requires |rec| >= RequestBodyPartsStart + RequestBodyPartLength
    ensures |r| == 6
  {
    rec[RequestBodyPartsStart..RequestBodyPartsStart + RequestBodyPartLength]
  }

  /** The two fragments for the next request: the first record's and the last record's (or the default when there is one record). */
  function GetRequestBodyParts(recs: seq<string>): (r: (string, string))
    requires |recs| > 0
    requires |recs[0]| >= 19 && |recs[|recs| - 1]| >= 19
    ensures r.0 == recs[0][13..19]
    ensures |recs| == 1 ==> r.1 == "!!!!!0"
    ensures |recs| > 1 ==> r.1 == recs[|recs| - 1][13..19]
  {
    var first := RequestBodyPart(recs[0]);
    var last := if |recs| != 1 then RequestBodyPart(recs[|recs| - 1]) else DefaultLastRequestBodyPart;
    (first, last)
  }

  // ---- the reconstructed whole-body decoder ----

  function DecodeRecord(rec: string): (r: Result<(UpdateKind, UpdateData), WireError>)
    ensures |rec| < 48 ==> r == Err(ShortRecord)
    ensures |rec| >= 48 && rec[21..26] !in Tags ==> r == Err(UnknownUpdateType(rec[21..26]))
    ensures r.Ok? ==> |rec| >= 48 && r.value.0 == Tags[rec[21..26]] && r.value.1.rawData == rec[48..]
    ensures r.Ok? ==> r.value.0 in {MarketKind, SelectionKind, PriceKind}
  {
    if |rec| < UpdateDataStart then Err(ShortRecord)
    else
      var kind :- GetUpdateType(rec);
      var id :- GetUpdateDataId(rec, kind);
      Ok((kind, UpdateData(id, GetUpdateData(rec))))
  }

  /** Every record decoded in order; the first failure is the result. */
  function DecodeAll(recs: seq<string>): (r: Result<seq<(UpdateKind, UpdateData)>, WireError>)
    ensures r.Ok? <==> forall i :: 0 <= i < |recs| ==> DecodeRecord(recs[i]).Ok?
    ensures r.Ok? ==> |r.value| == |recs| && forall i :: 0 <= i < |recs| ==> DecodeRecord(recs[i]) == Ok(r.value[i])
  {
    if |recs| == 0 then Ok([])
    else
      var head :- DecodeRecord(recs[0]);
      var tail :- DecodeAll(recs[1..]);
      assert forall i :: 1 <= i < |recs| ==> recs[i] == recs[1..][i - 1];
      Ok([head] + tail)
  }

  /** The records of kind `k`, in order. */
  function OfKind(pairs: seq<(UpdateKind, UpdateData)>, k: UpdateKind): seq<UpdateData> {
    if |pairs| == 0 then []
    else OfKind(pairs[..|pairs| - 1], k) + (if pairs[|pairs| - 1].0 == k then [pairs[|pairs| - 1].1] else [])
  }

  /** Records grouped into a map by kind, each list in arrival order. */
  function Group(pairs: seq<(UpdateKind, UpdateData)>): map<UpdateKind, seq<UpdateData>> {
    if |pairs| == 0 then map[]
    else
      var g := Group(pairs[..|pairs| - 1]);
      var (k, d) := pairs[|pairs| - 1];
      g[k := (if k in g then g[k] else []) + [d]]
  }

  /** A kind is a key of the grouping exactly when some record has it, and its list is the records of that kind. */
  lemma {:induction false} GroupCharacterised(pairs: seq<(UpdateKind, UpdateData)>, k: UpdateKind)
    ensures k in Group(pairs) <==> exists i :: 0 <= i < |pairs| && pairs[i].0 == k
    ensures k in Group(pairs) ==> Group(pairs)[k] == OfKind(pairs, k)
  {
    if |pairs| > 0 {
      var init := pairs[..|pairs| - 1];
      GroupCharacterised(init, k);
      assert forall i :: 0 <= i < |init| ==> init[i] == pairs[i];
      if k !in Group(init) {
        assert OfKind(init, k) == [] by { OfKindEmpty(init, k); }
      }
    }
  }

  lemma {:induction false} OfKindEmpty(pairs: seq<(UpdateKind, UpdateData)>, k: UpdateKind)
    requires forall i :: 0 <= i < |pairs| ==> pairs[i].0 != k
    ensures OfKind(pairs, k) == []
  {
    if |pairs| > 0 {
      OfKindEmpty(pairs[..|pairs| - 1], k);
    }
  }

  /**
   * `TransformUpdates`, reconstructed from the helpers: no records means no update;
   * otherwise every record is decoded, grouped by kind, and the continuation
   * fragments are taken from the first and last records.
   */
  function Decode(body: string): (r: Result<Option<Update>, WireError>)
    ensures |SplitRawData(body)| == 0 ==> r == Ok(None)
    ensures r.Ok? && r.value.Some? ==> |SplitRawData(body)| > 0
  {
    var recs := SplitRawData(body);
    if |recs| == 0 then Ok(None)
    else
      var pairs :- DecodeAll(recs);
      assert DecodeRecord(recs[0]).Ok? && DecodeRecord(recs[|recs| - 1]).Ok?;
      Ok(Some(Update(Group(pairs), GetRequestBodyParts(recs))))
  }

  /** No decoded response ever carries the event kind (nor the unknown kind): the tag table never produces them. */
  lemma NoEventKindIsDecoded(body: string)
    requires Decode(body).Ok? && Decode(body).value.Some?
    ensures EventKind !in Decode(body).value.value.data
    ensures UnknownKind !in Decode(body).value.value.data
  {
    var recs := SplitRawData(body);
    var pairs := DecodeAll(recs).value;
    forall k | k == EventKind || k == UnknownKind
      ensures k !in Group(pairs)
    {
      GroupCharacterised(pairs, k);
      forall i | 0 <= i < |pairs|
        ensures pairs[i].0 != k
      {
        assert DecodeRecord(recs[i]) == Ok(pairs[i]);
      }
    }
  }

  /** A response whose separator-split yields a record with an unrecognised tag is rejected with that tag. */
  lemma UnknownTagIsRejected(body: string, i: int)
    requires 0 <= i < |SplitRawData(body)|
    requires forall j :: 0 <= j < |SplitRawData(body)| ==> |SplitRawData(body)[j]| >= 48
    requires SplitRawData(body)[i][21..26] !in Tags
    ensures Decode(body).Err? && Decode(body).error.UnknownUpdateType?
  {
    var recs := SplitRawData(body);
    assert !DecodeRecord(recs[i]).Ok?;
    var r := DecodeAll(recs);
    assert r.Err?;
    assert forall j :: 0 <= j < |recs| ==> DecodeRecord(recs[j]).Err? ==> DecodeRecord(recs[j]).error.UnknownUpdateType?;
    DecodeAllFirstError(recs);
  }

  /** The error of `DecodeAll` is the error of some record. */
  lemma {:induction false} DecodeAllFirstError(recs: seq<string>)
    requires DecodeAll(recs).Err?
    ensures exists j :: 0 <= j < |recs| && DecodeRecord(recs[j]) == Err(DecodeAll(recs).error)
  {
    if DecodeRecord(recs[0]).Ok? {
      DecodeAllFirstError(recs[1..]);
      var j :| 0 <= j < |recs[1..]| && DecodeRecord(recs[1..][j]) == Err(DecodeAll(recs[1..]).error);
      assert recs[1..][j] == recs[j + 1];
    }
  }
}
