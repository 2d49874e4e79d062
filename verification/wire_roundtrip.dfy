/**
 * The push format from the producing side: a record laid out field by field, a
 * body of records each introduced by the major separator. Decoding such a body
 * gives back the records' kinds, ids, payloads and continuation fragments.
 */
module WireRoundTrip {
  import opened Wrappers
  import opened Strings
  import opened UpdateTypes
  import opened Wire

  /** A push record, field by field, without the id's leading `0` (swallowed by the separator). */
  datatype WireRecord = WireRecord(
    eventId: string,
    gap: string,
    fragment: string,
    filler: string,
    tag: string,
    updateId: string,
    trailer: string,
    payload: string)

  predicate WellFormed(w: WireRecord) {
    |w.eventId| == 9 && |w.gap| == 4 && |w.fragment| == 6 && |w.filler| == 2
    && |w.tag| == 5 && |w.updateId| == 10 && |w.trailer| == 12
  }

  function Encode(w: WireRecord): string {
    w.eventId + w.gap + w.fragment + w.filler + w.tag + w.updateId + w.trailer + w.payload
  }

  /** Pieces each introduced by `sep`. */
  function Frame(pieces: seq<string>, sep: string): string {
    if |pieces| == 0 then "" else sep + pieces[0] + Frame(pieces[1..], sep)
  }

  /** A body carrying the records in order, each after a major separator. */
  function EncodeBody(ws: seq<WireRecord>): string {
    Frame(Encoded(ws), MajorSeparator)
  }

  function Encoded(ws: seq<WireRecord>): seq<string> {
    seq(|ws|, i requires 0 <= i < |ws| => Encode(ws[i]))
  }

  /** A record that can be framed unambiguously: no separator occurs inside it. */
  predicate Clean(w: WireRecord) {
    !Contains(Encode(w), MajorSeparator) && !Contains(Encode(w), MinorSeparator)
  }

  /** The id the decoder should report for a record of a known tag. */
  function ExpectedId(w: WireRecord): string
    requires WellFormed(w) && w.tag in Tags
  {
    if Tags[w.tag] == MarketKind then w.updateId[1..] else w.updateId
  }

  function Expected(ws: seq<WireRecord>): seq<(UpdateKind, UpdateData)>
    requires forall i :: 0 <= i < |ws| ==> WellFormed(ws[i]) && ws[i].tag in Tags
  {
    seq(|ws|, i requires 0 <= i < |ws| => (Tags[ws[i].tag], UpdateData(ExpectedId(ws[i]), ws[i].payload)))
  }

  // ---- field readers recover the fields ----

  lemma EncodeFields(w: WireRecord)
    requires WellFormed(w)
    ensures var e := Encode(w);
      && |e| >= 48
      && e[..9] == w.eventId && e[13..19] == w.fragment && e[21..26] == w.tag
      && e[26..36] == w.updateId && e[27..36] == w.updateId[1..] && e[48..] == w.payload
  {
    var e := Encode(w);
    assert e == w.eventId + w.gap + w.fragment + w.filler + w.tag + w.updateId + (w.trailer + w.payload);
  }

  /** A well-formed record with a known tag decodes to its kind, its (kind-dependent) id and its payload. */
  lemma DecodeRecordRoundTrip(w: WireRecord)
    requires WellFormed(w) && w.tag in Tags
    ensures DecodeRecord(Encode(w)) == Ok((Tags[w.tag], UpdateData(ExpectedId(w), w.payload)))
    ensures RequestBodyPart(Encode(w)) == w.fragment
  {
    EncodeFields(w);
  }

  /** A record with a tag outside the table is rejected with that tag. */
  lemma DecodeRecordUnknownTag(w: WireRecord)
    requires WellFormed(w) && w.tag !in Tags
    ensures DecodeRecord(Encode(w)) == Err(UnknownUpdateType(w.tag))
  {
    EncodeFields(w);
  }

  // ---- splitting recovers the records ----

  /** Both separators start with a character that does not recur in them. */
  lemma SeparatorsHaveUniqueLead()
    ensures UniqueLead(MajorSeparator) && UniqueLead(MinorSeparator)
  {
  }

  lemma Assoc4<T>(a: seq<T>, b: seq<T>, c: seq<T>, d: seq<T>)
    ensures a + (b + c + d) == a + b + (c + d)
  {
  }

  lemma {:induction false} SplitCleanThenFrame(e: string, pieces: seq<string>, sep: string)
    requires UniqueLead(sep) && !Contains(e, sep)
    requires forall i :: 0 <= i < |pieces| ==> !Contains(pieces[i], sep)
    ensures Split(e + Frame(pieces, sep), sep) == [e] + pieces
    decreases |pieces|
  {
    if |pieces| == 0 {
      assert e + Frame(pieces, sep) == e;
      SplitClean(e, sep);
    } else {
      var tail := pieces[0] + Frame(pieces[1..], sep);
      Assoc4(e, sep, pieces[0], Frame(pieces[1..], sep));
      SplitAfterClean(e, tail, sep);
      SplitCleanThenFrame(pieces[0], pieces[1..], sep);
      assert pieces == [pieces[0]] + pieces[1..];
    }
  }

  lemma {:induction false} SplitEachClean(pieces: seq<string>)
    requires forall i :: 0 <= i < |pieces| ==> !Contains(pieces[i], MinorSeparator)
    ensures SplitEach(pieces) == pieces
  {
    if |pieces| > 0 {
      SplitClean(pieces[0], MinorSeparator);
      SplitEachClean(pieces[1..]);
      assert pieces == [pieces[0]] + pieces[1..];
    }
  }

  /** Splitting a body built from clean records yields exactly one segment per record, in order. */
  lemma SplitRawDataRoundTrip(ws: seq<WireRecord>)
    requires forall i :: 0 <= i < |ws| ==> Clean(ws[i])
    ensures SplitRawData(EncodeBody(ws)) == Encoded(ws)
  {
    SeparatorsHaveUniqueLead();
    assert !Contains("", MajorSeparator);
    assert !Contains("", MinorSeparator);
    var es := Encoded(ws);
    SplitCleanThenFrame("", es, MajorSeparator);
    assert "" + Frame(es, MajorSeparator) == EncodeBody(ws);
    var pieces := [""] + es;
    SplitEachClean(pieces);
    assert pieces[1..] == Encoded(ws);
  }

  /**
   * Decoding a body of clean, well-formed records with known tags yields those
   * records grouped by kind, with the first record's fragment and the last
   * record's (or `!!!!!0` for a single record); an empty body is "no update".
   */
  lemma DecodeRoundTrip(ws: seq<WireRecord>)
    requires forall i :: 0 <= i < |ws| ==> WellFormed(ws[i]) && ws[i].tag in Tags && Clean(ws[i])
    ensures |ws| == 0 ==> Decode(EncodeBody(ws)) == Ok(None)
    ensures |ws| > 0 ==> Decode(EncodeBody(ws)) == Ok(Some(Update(
      Group(Expected(ws)),
      (ws[0].fragment, if |ws| == 1 then "!!!!!0" else ws[|ws| - 1].fragment))))
  {
    SplitRawDataRoundTrip(ws);
    var recs := Encoded(ws);
    forall i | 0 <= i < |ws|
      ensures DecodeRecord(recs[i]) == Ok(Expected(ws)[i])
    {
      DecodeRecordRoundTrip(ws[i]);
    }
    if |ws| > 0 {
      var r := DecodeAll(recs);
      assert r.Ok?;
      assert r.value == Expected(ws);
      DecodeRecordRoundTrip(ws[0]);
      DecodeRecordRoundTrip(ws[|ws| - 1]);
    }
  }

  // ---- the documented sample record ----

  const DocRecord := WireRecord(
    "244772570", "!!!!", "'o0:FC", "Gs", "PRICE", "2372614298", "00001e00001e",
    "{\"lp_num\": \"3\", \"lp_den\": \"4\"}")

  /** The documented sample: a price update for selection 2372614298, fragment `'o0:FC`, payload starting at `{`. */
  lemma DocRecordDecodes()
    ensures DecodeRecord(Encode(DocRecord)) == Ok((PriceKind, UpdateData("2372614298", "{\"lp_num\": \"3\", \"lp_den\": \"4\"}")))
    ensures RequestBodyPart(Encode(DocRecord)) == "'o0:FC"
    ensures Encode(DocRecord)[48] == '{'
  {
    DecodeRecordRoundTrip(DocRecord);
    EncodeFields(DocRecord);
  }
}

