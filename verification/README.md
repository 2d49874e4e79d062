# Ladbrokes basketball integration — a Dafny model of its pure core

The integration polls the Ladbrokes feed for basketball events. It stores them
in two hashes, one for live events and one for pre-match events, keyed by
external id. It keeps the live events current through a long-poll push channel.
This project models the four pure parts of that service and proves properties
of them.

- **Push wire decoder** (`Wire`, `WireRoundTrip`, `UpdateTypes`).
  - A push body is split on the separators `MSEVENT0` and `MsEVENT0`.
  - Each record is cut at fixed offsets: event id `[0,9)`, continuation fragment `[13,19)`, type tag `[21,26)`, update id `[26,36)` and JSON payload `[48..)`.
  - The tag table maps `EVENT` to the *market* kind, as written, so no decoded record ever has the event kind.
  - `Wire.Decode` composes the helpers into one whole-body decoder. It is a **reconstruction**: the repository calls `transform.TransformUpdates` but its body is not part of this model. The reconstruction is the obvious composition. No records means "no update". Every record is decoded, and the first failure wins. Records are grouped by kind. The two fragments come from the first and the last record.
- **Live update application** (`LiveUpdates`, `OddsForms`, `UpdateBatch`, `Sessions`).
  - Market, selection and price updates edit an event's ordered markets and outcomes.
  - The fractional odds are turned into decimal and American odds.
  - A decoded response is applied record by record; the first error stops the run.
  - The per-id polling sessions are a sequential state machine. Each entry holds a polling flag and the next request body.
- **Snapshot reconcile** (`Reconcile`, `Storage`).
  - The four start-time windows and the query each one sends.
  - The split of a snapshot into live and pre-match maps.
  - The set-difference helpers.
  - The two merge modes: additive for live events, overwrite for pre-match events.
  - The store operations over a hash, modelled as a `map`.
- **Catalog normaliser** (`Transform`, `EventFields`, `Participants`, `Markets`, `Outcomes`, `MarketTypes`, `OutcomeTypes`, `Catalog`).
  - Filtering of classes, events and markets.
  - Participant extraction and typing.
  - Event names and links.
  - Points and availability fallbacks.
  - Outcome-type lookup precedence.

The remaining modules are support:
- `Domain` holds the canonical records.
- `Feed` holds the feed's input records, with only the fields the code reads.
- `Strings` holds the byte-string helpers (split, join, `ParseBool`, integer rendering).
- `Wrappers` holds `Option` and `Result`.

Go's unordered map iteration becomes a parameter. `UpdateBatch.UpdateEvent` takes the order in which the kinds of a response are visited. Every parser the code calls is a function parameter: JSON decoding, `strconv.ParseFloat`, RFC 3339 time parsing, protobuf marshalling. Go panics (indexing past a slice end) become an explicit `Panic` error in composite operations. In the small helpers they become preconditions.

## Model

| member | source | states |
|---|---|---|
| UpdateTypes.KindOf | internal/mapping/update_types.go:13-18 | A tag is recognised exactly when it is `EVENT`, `EVMKT`, `SELCN` or `PRICE`. `EVENT` and `EVMKT` give the market kind, `SELCN` the selection kind and `PRICE` the price kind. No tag gives the event or unknown kind. |
| UpdateTypes.TagTableShape | internal/mapping/update_types.go:5-18 | The table has exactly four tags. Neither the event kind nor the unknown kind is among its values. The unknown kind is the zero value, distinct from every real kind. |
| Wire.Offsets | internal/transform/updates.go:37-40 | The offsets derived from the field lengths are 21 (tag), 26 (update id), 48 (payload) and 13 (fragment). |
| Wire.RemovedImpliesSuspended | internal/transform/updates.go:60-74 | A market is removed exactly when it is suspended and not displayed, so a removed market is always suspended. |
| Wire.GetUpdateType | internal/transform/updates.go:87-94 | Succeeds exactly when the five characters at `[21,26)` are a known tag, yielding that tag's kind (never event or unknown). Otherwise the error carries the unknown tag. |
| Wire.GetEventId | internal/transform/updates.go:97-99 | The event id is the record's first nine characters. |
| Wire.GetUpdateId | internal/transform/updates.go:101-107 | The update id is `[27,36)` for the event and market kinds, and `[26,36)` for the others. |
| Wire.GetUpdateDataId | internal/transform/updates.go:109-118 | The event kind gives the event id, market/selection/price give the update id, and the unknown kind is an error. |
| Wire.GetUpdateData | internal/transform/updates.go:120-122 | The payload is what follows the 48-character header: header plus payload is the record. |
| Wire.GetRequestBodyParts | internal/transform/updates.go:124-133 | The first fragment is `[13,19)` of the first record. The second is `!!!!!0` for a single record, else `[13,19)` of the last record. |
| Wire.DecodeRecord | internal/transform/updates.go:87-122 | A record shorter than the header is refused. A record with an unknown tag is refused with that tag. A decoded record has the table's kind for its tag (market, selection or price) and the payload after the header. |
| Wire.DecodeAll | internal/transform/updates.go:87-122 | The records decode exactly when each one does. The results correspond one to one and in order. |
| Wire.GroupCharacterised | internal/poller/updates.go:155-157 | A kind is a key of the grouped records exactly when some record has it. Its list is that kind's records in arrival order. |
| Wire.Decode | internal/transform/updates.go:77-85 | A body with no records is "no update", and an update is produced only from a body with records. |
| Wire.NoEventKindIsDecoded | internal/mapping/update_types.go:13-18 | No decoded response holds event-kind or unknown-kind records. |
| Wire.UnknownTagIsRejected | internal/transform/updates.go:87-94 | A body holding a full-length record with an unrecognised tag fails to decode with an unknown-type error. |
| WireRoundTrip.EncodeFields | internal/transform/updates.go:19-40 | A record laid out field by field has each field at the documented offset. |
| WireRoundTrip.DecodeRecordRoundTrip | internal/transform/updates.go:87-133 | A well-formed record with a known tag decodes to its kind, its kind-dependent id and its payload, and its fragment reads back. |
| WireRoundTrip.DecodeRecordUnknownTag | internal/transform/updates.go:87-94 | A well-formed record with a tag outside the table is rejected naming that tag. |
| WireRoundTrip.SplitRawDataRoundTrip | internal/transform/updates.go:77-85 | A body that frames separator-free records with the major separator splits back into exactly those records, in order. |
| WireRoundTrip.DecodeRoundTrip | internal/transform/updates.go:77-133 | Decoding such a body gives the records grouped by kind, with the first record's fragment and the last record's (or `!!!!!0`). An empty body gives "no update". |
| WireRoundTrip.DocRecordDecodes | internal/transform/updates.go:19-35 | The documented sample record decodes as a price update for id `2372614298` with fragment `'o0:FC` and a payload starting at `{`. |
| Strings.SplitJoinClean | internal/transform/updates.go:78-82 | Splitting on a separator undoes joining with it when no piece contains the separator. |
| LiveUpdates.FirstWithId | internal/poller/updates.go:208-211 | Finds the first market (or outcome) with the id: every earlier one has another id, and none has it when the result is absent. |
| LiveUpdates.WithAvailability | internal/poller/updates.go:236-239 | Every outcome of the market gets the availability, and nothing else of the market changes. |
| LiveUpdates.NewMarket | internal/poller/updates.go:244-267 | A market is opened exactly when the English group name is a known template. It has that template's type, the update id and no outcomes. A player market is named after the English name up to the first ` (`, when that is non-empty; no other market is named. |
| LiveUpdates.HandleMarketUpdate | internal/poller/updates.go:205-269 | A market update changes nothing of the event but its markets. |
| LiveUpdates.MarketUpdateIgnored | internal/poller/updates.go:213-229 | Without a known template (or with group names lacking English) the event is unchanged. |
| LiveUpdates.MarketUpdateRemoves | internal/poller/updates.go:231-234 | A removal deletes exactly the first market with the id, keeping the order of the rest. |
| LiveUpdates.MarketUpdateSetsAvailability | internal/poller/updates.go:236-241 | Otherwise every market with the id gets the update's availability on all outcomes; other markets are untouched. |
| LiveUpdates.MarketUpdateOpens | internal/poller/updates.go:244-268 | An update for an id no market has keeps the existing markets as they are. It appends exactly one market, the new one, exactly when the English group name is a known template. Otherwise it appends nothing. |
| LiveUpdates.MarketUpdateNeverDuplicates | internal/poller/updates.go:205-269 | An update for an id already present never adds a market. |
| LiveUpdates.NewSelection | internal/poller/updates.go:279-288 | The seeded outcome is a competitor with the update id, the English name, zero odds and the selection's availability. |
| LiveUpdates.ApplySelection | internal/poller/updates.go:289-294 | The outcome takes the selection's availability, and its odds are updated from the received fraction as `updateOdds` does. An error is reported exactly when the fraction does not parse. Nothing else changes. |
| LiveUpdates.FirstSelectionTarget | internal/poller/updates.go:274-295 | Finds the first market that has the update's market id and an outcome with the id (after seeding an empty one). |
| LiveUpdates.HandleSelectionUpdate | internal/poller/updates.go:271-298 | A selection update changes nothing of the event but its markets. |
| LiveUpdates.SelectionUpdateEffect | internal/poller/updates.go:271-298 | Exactly one outcome changes: the first with the id in the first target market. It becomes the selection applied to it: new availability and updated odds, nothing else. With no target the event is unchanged. |
| LiveUpdates.SelectionSeedsEmptyMarket | internal/poller/updates.go:279-294 | In an empty target market the update leaves exactly one outcome: the seeded competitor, repriced. |
| LiveUpdates.FirstPriceTarget | internal/poller/updates.go:301-305 | Finds the first market holding an outcome with the id. |
| LiveUpdates.HandlePriceUpdate | internal/poller/updates.go:300-310 | A price update changes nothing of the event but its markets. |
| LiveUpdates.PriceUpdateEffect | internal/poller/updates.go:300-310 | Only the first outcome with the id, across markets in order, is repriced. Only its odds change, to the odds `updateOdds` derives from the fraction. With no such outcome the event is unchanged. |
| LiveUpdates.LandPriceIdempotent | internal/poller/updates.go:300-329 | Repricing keeps the outcome the first with its id, and repricing again changes nothing. |
| LiveUpdates.PriceUpdateIdempotent | internal/poller/updates.go:300-329 | Receiving the same price update twice leaves the event as receiving it once. |
| OddsForms.Round | internal/poller/updates.go:324 | Rounds to the nearest integer, halves away from zero. |
| OddsForms.DecimalOdds | internal/poller/updates.go:322 | Decimal odds are whole hundredths within a hundredth below ratio + 1. That pins them to the ratio cut down to hundredths, plus 1. |
| OddsForms.AmericanValue | internal/poller/updates.go:323-327 | Above evens, the integer within half a unit of ratio × 100, at least 100. At or below evens, the integer within half a unit of -100 / ratio: at most -100 for a positive ratio, and non-negative for a negative one. |
| OddsForms.AmericanOdds | internal/poller/updates.go:323-327 | The American text is non-empty. It starts with a minus exactly when a positive ratio is at most evens, and never for a negative ratio. |
| OddsForms.FractionalOdds | internal/poller/updates.go:331-341 | The numerator is parsed first, then the denominator, and the first failure is reported. It succeeds exactly when both parse. |
| OddsForms.UpdateOdds | internal/poller/updates.go:312-329 | The received fraction is stored whatever happens. On a parse error the decimal and American forms are kept, and an error is reported exactly then. A zero numerator gives decimal 1 and an infinite American value, `-Inf` for a positive denominator and `+Inf` for a negative one. Non-zero parts give the decimal and American odds of their ratio. |
| OddsForms.UpdateOddsIdempotent | internal/poller/updates.go:312-329 | Applying the same fraction twice equals applying it once. |
| OddsForms.UpdateOddsFollowsRatio | internal/poller/updates.go:320-328 | For a parsed fraction with non-zero parts the update succeeds. The decimal odds are the one whole-hundredth value within a hundredth below ratio + 1. The American odds render the integer within half a unit of ratio × 100 above evens, and of -100 / ratio otherwise. For a positive ratio they are negative exactly at or below evens. |
| OddsForms.FavourableAmerican | internal/poller/updates.go:323-326 | Above evens, the American odds are the rounded gain on 100, at least +100. |
| OddsForms.UnfavourableAmerican | internal/poller/updates.go:327 | At or below evens, the American odds are minus the rounded stake needed to win 100, at most -100. |
| OddsForms.DecimalIsHundredths | internal/poller/updates.go:322 | Decimal odds are whole hundredths, and at least 2 exactly when the ratio is at least evens. |
| OddsForms.Examples | internal/poller/updates.go:320-328 | 27/10 gives 3.7 and 270; 2/9 gives 1.22 and -450; 83/100 gives 1.83 and -120. |
| Strings.ParseBool | internal/transform/event.go:31-40 | Reads true exactly for `1`, `t`, `T`, `TRUE`, `true` and `True`, and false exactly for their false counterparts. Any other text is unreadable, as `strconv.ParseBool` does. |
| Strings.IntToStringInjective | internal/poller/updates.go:275 | Distinct market ids render to distinct decimal strings, so a selection update matches markets of one id only. |
| UpdateBatch.ApplyOne | internal/poller/updates.go:158-189 | Each record is decoded by its kind's decoder, and a decoder failure is an unmarshal error for that kind. Market records go to the market handler. Selection and price records go to their handlers, and a handler's odds error ends the batch with the progress as it was. An event record adds its id to the finished ids exactly when the payload reports the event finished, and leaves the event alone. The unknown kind is a no-op. Only the markets ever change. |
| UpdateBatch.RunAppend | internal/poller/updates.go:155-193 | A single record runs as ApplyOne. A concatenation runs its first part, then, unless that failed, the second part from where the first left off. So a run is ApplyOne applied record by record, stopping at the first error. |
| UpdateBatch.FailureIgnoresRest | internal/poller/updates.go:160-188 | After a failing record nothing that follows is applied. |
| UpdateBatch.RunTouchesOnlyMarkets | internal/poller/updates.go:155-203 | A run edits only the event's markets, and the finished ids only grow, as an extension of the earlier list. |
| UpdateBatch.RunWithoutEventKind | internal/poller/updates.go:158-166 | A batch without event-kind records finishes nothing. |
| UpdateBatch.BatchDrawsFromData | internal/poller/updates.go:156-157 | The flattened batch holds only records of the response, each under its own kind. |
| UpdateBatch.DecodedUpdateFinishesNothing | internal/poller/updates.go:155-203 | Applying a decoded response never finishes an event, whatever the kind order. |
| UpdateBatch.MarketOnlyRun | internal/poller/updates.go:167-172 | A batch of decodable market updates always applies and equals folding the market handler over the records. |
| Sessions.Dispatch | internal/poller/updates.go:59-71 | A poll starts exactly when the id has no entry or an idle one. The id is then polling with its body kept (none for a new entry), and other entries are untouched. |
| Sessions.RequestBody | internal/poller/updates.go:80-85 | The poll sends the stored body, or the default body for the id before any response was applied. |
| Sessions.Idle | internal/poller/updates.go:95-101 | The entry stops polling, with its body replaced only when a new one is given. Other entries are untouched. |
| Sessions.NoDoubleDispatch | internal/poller/updates.go:61-70 | Dispatching an id already polling does nothing. |
| Sessions.FirstPollUsesDefault | internal/poller/updates.go:80-85 | A new id is dispatched, and its first poll sends the default body with that id. |
| Sessions.RequestBodyLayout | internal/poller/updates.go:343-345 | The continuation body carries the id and the two fragments at fixed positions, and differs from the first-poll body. |
| Sessions.RequestBodyInjective | internal/poller/updates.go:343-345 | Distinct fragments give distinct continuation bodies. |
| Sessions.CompleteIdles | internal/poller/updates.go:94-124 | A completed poll that continues leaves the id idle and every other entry as it was. |
| Sessions.CompleteBody | internal/poller/updates.go:94-124 | With no update or a missing event the id idles with its body kept. After an applied response its body is the continuation built from that response. |
| Sessions.ApplyResponse | internal/poller/updates.go:103-124 | A response for an id no longer stored idles the id and leaves the store alone. Otherwise the batch runs on the stored event. A failed run stops the loop with the finished ids deleted. A successful run deletes the finished ids, then stores the edited event, and idles the id with the continuation body built from the response. |
| Sessions.CompleteTouchesOnlyPolledEvent | internal/poller/updates.go:103-119 | A decoded response deletes nothing and rewrites no other stored event. The poll continues exactly when the run succeeds. The polled id then holds the event the run produced, which differs from before only in its markets. A failed run leaves the store as it was. |
| Sessions.FinishedEventIsStoredAgain | internal/poller/updates.go:111-119 | As written, an event reported finished is deleted and then stored again by the same poll. |
| Storage.StoreEvent | internal/storage/storage.go:46-52 | The event sits under its id, and every other entry is untouched. |
| Storage.StoreEventsKeys | internal/storage/storage.go:71-81 | Storing a list adds exactly its ids and leaves entries with other ids untouched. |
| Storage.StoreEventsLastWins | internal/storage/storage.go:71-81 | Each stored id holds the last event of the list with that id. |
| Storage.StoreEventsAppend | internal/storage/storage.go:71-81 | Storing a list and then one more event equals storing the longer list. |
| Storage.NewEvents | internal/storage/storage.go:118-133 | The new events are exactly the events whose id is not current. |
| Storage.NewEventsAppend | internal/storage/storage.go:118-133 | Filtering distributes over concatenation, so the kept events stay in input order. |
| Storage.MissingIds | internal/storage/storage.go:135-148 | The missing ids are exactly the current ids no event carries. |
| Storage.MissingIdsAppend | internal/storage/storage.go:135-148 | The missing ids keep the order of the current ids. |
| Storage.DeleteEvents | internal/storage/storage.go:95-100 | Exactly the listed ids are removed, and the rest are unchanged; the live loop deletes finished ids with it (internal/poller/updates.go:195-203). |
| Storage.StoreNewEventsKeepsExisting | internal/storage/storage.go:83-93 | Storing new events never overwrites a stored one. It adds every snapshot id, each with the last event bearing it. |
| Storage.RemoveMissingKeepsSnapshotIds | internal/storage/storage.go:106-116 | Afterwards the hash holds exactly the stored ids the snapshot carries, unchanged. |
| Storage.ReplaceWithSnapshot | internal/storage/storage.go:71-116 | Removing missing events and then storing the snapshot leaves exactly the snapshot's ids, each with its last event. |
| Reconcile.WindowsTile | internal/poller/events.go:34-39 | There are four windows from four hours back. Each bounded window ends where the next starts. |
| Reconcile.EventsUrl | internal/poller/events.go:205-216 | Every query starts with the open query. It adds the end filter exactly when it is not the last window. |
| Reconcile.OnlyLastWindowIsOpen | internal/poller/events.go:205-216 | Of the four window queries only the last is open-ended. |
| Reconcile.DivideEventsPartitions | internal/poller/events.go:219-233 | The split succeeds exactly when every event marshals. The live map then holds exactly the live events' ids and the other map the rest. Each id holds the marshalled bytes of the last event of that phase with that id. |
| Reconcile.MissingIds | internal/poller/events.go:235-243 | The missing ids are exactly the listed ids that are not keys of the snapshot, and there are no more of them than listed ids. |
| Reconcile.MissingIdsAppend | internal/poller/events.go:235-243 | The missing ids keep listing order. |
| Reconcile.NewEventsAreUnlisted | internal/poller/events.go:245-256 | The new events are the snapshot entries whose id is not listed, with their values. The same holds for the copy in internal/poller/live.go. |
| Reconcile.RemoveUnavailableKeeps | internal/poller/events.go:184-190 | Afterwards the hash holds exactly the stored ids the snapshot has, with their stored values. |
| Reconcile.UnionUnlessEmpty | internal/poller/events.go:192-198 | Skipping the write of an empty set of new events is only a shortcut: the result is the same. |
| Reconcile.LiveReconcileIsAdditive | internal/poller/events.go:86-99 | With a non-empty snapshot the live hash holds exactly the snapshot's ids. Stored ids keep their stored values, and new ids take the snapshot's. An empty snapshot changes nothing. |
| Reconcile.PreMatchReconcileOverwrites | internal/poller/events.go:100-112 | With a non-empty snapshot the pre-match hash becomes the snapshot. An empty one changes nothing. |
| Reconcile.LiveReconcileIdempotent | internal/poller/events.go:86-99 | Reconciling the live hash again with the same snapshot changes nothing. |
| Reconcile.RoundSeparatesPhases | internal/poller/events.go:68-112 | With distinct ids and both phases present, the live hash ends with exactly the live ids and the pre-match hash with exactly the others. |
| Reconcile.PhasesAreDisjoint | internal/poller/events.go:226-230 | With distinct ids no id is both live and pre-match. |
| Transform.TransformClasses | internal/transform/transform.go:38-48 | The result holds exactly the ids of the valid classes, and is no longer than the listing. |
| Transform.TransformClassesAppend | internal/transform/transform.go:38-48 | Class filtering distributes over concatenation, so the kept ids keep listing order. |
| Transform.ClassValidity | internal/transform/transform.go:118-129 | A class is valid exactly when its active flag is one of Go's spellings of true. An empty flag rejects it. |
| Transform.TransformEventsAppend | internal/transform/transform.go:50-73 | A single invalid event gives nothing. A single valid event gives its conversion, or its error. Conversion distributes over concatenation, so results keep listing order and the first error wins. |
| Transform.InvalidEventIsSkipped | internal/transform/transform.go:55-59 | An event without id or name is skipped with no effect on the others. |
| Transform.FailingEventAborts | internal/transform/transform.go:60-63 | One failing valid event fails the whole listing, wherever it sits. |
| Transform.TransformEventFields | internal/transform/transform.go:104-115 | A converted event carries: the feed id; the league from the type name; the sport; the live flag and start time as parsed; the participants of its money-line and outright markets; "P0 vs P1" as a match's name (else the feed name); its link; and the feed's markets converted against its participants' outcome types. Beside it come the unknown templates met during that conversion. |
| Transform.TransformEventSteps | internal/transform/transform.go:75-115 | The steps run in order: start time, live flag, participants, markets, name. The first failing step's error is the event's error, and a single-sided match crashes. An event converts exactly when every step succeeds. |
| Transform.BlankStartTimeFails | internal/transform/transform.go:76-79 | A blank start time fails the event with a time error before anything else is read. |
| Transform.SingleSidedMatchPanics | internal/transform/event.go:24-29 | A match with a single non-competitor participant crashes the conversion once its markets convert. |
| EventFields.GetName | internal/transform/event.go:24-29 | A match is named home, then ` vs `, then away, at those positions. Any other event keeps the feed's name. |
| EventFields.StartTime | internal/transform/event.go:13-22 | A blank start time is a time error. Otherwise the result is the parser's, with failure as a time error. |
| EventFields.IsLive | internal/transform/event.go:31-40 | An empty flag is not live. Otherwise the flag must parse as a boolean, and an unparsable one is a parse error. |
| EventFields.NormalizeLinkPart | internal/transform/event.go:53-58 | Each character is mapped on its own: spaces and slashes become dashes, the rest is lower-cased. The result has no space, slash or upper-case letter. |
| EventFields.NormalizeLinkPartIdempotent | internal/transform/event.go:53-58 | Normalising a normalised part changes nothing. |
| EventFields.LinkSplits | internal/transform/event.go:42-51 | When the event id holds no slash, the link splits on `/` into exactly scheme, host, `event`, the four normalised parts, the id and `all-markets`. |
| Participants.TypeOfCode | internal/transform/participants.go:37-46 | The home code gives home, the away code gives away, and anything else gives competitor. |
| Participants.FromOutcomes | internal/transform/participants.go:17-24 | One participant per outcome, in order, named after it and typed by its code. |
| Participants.GetParticipants | internal/transform/participants.go:11-31 | Fails exactly when there are more than two participants and the first is not a competitor. Otherwise it returns them all, so a match has at most two. |
| Participants.CollectAppend | internal/transform/participants.go:13-26 | A single market gives one participant per outcome when it is a money line or an outright, and none otherwise. Participants are collected market by market, in order. |
| Participants.CollectComesFromQualifyingMarkets | internal/transform/participants.go:13-26 | The participants are exactly those made from the outcomes of money-line and outright markets: each one comes from such an outcome, and every such outcome gives one. |
| Participants.OtherMarketsContributeNothing | internal/transform/participants.go:15-16 | Markets other than money line and outright give no participants. |
| Participants.HeadToHead | internal/transform/participants.go:15-24 | A two-way money line with home and away codes gives a home and an away participant named after its outcomes. |
| Markets.PlayerName | internal/transform/markets.go:53-55 | The player name is a prefix of the market name without ` (`. It is the whole name when there is none, and stops right before the first one otherwise. |
| Markets.PlayerNameBeforeParenthesis | internal/transform/markets.go:53-55 | A name of the form player + ` (` + rest gives back the player. |
| Markets.ConvertMarket | internal/transform/markets.go:20-41 | An unknown template is skipped. A known one becomes a market of the mapped type with the feed id and converted outcomes. Only player markets carry the player name. An outcome error is passed on. |
| Markets.GetMarketsShape | internal/transform/markets.go:12-44 | On success the unhandled set is exactly the unknown templates. Every market of a known template is kept as its conversion, and nothing else is kept. Every kept market has a known type and carries a name exactly when it is a player market. |
| Markets.GetMarketsAppend | internal/transform/markets.go:12-44 | A single market gives its conversion when its template is known, and otherwise its template name as unhandled, or its outcome error. Conversion distributes over concatenation: kept markets stay in order, unknown names are pooled, and the first error wins. |
| Markets.GetMarketsKeepsKnown | internal/transform/markets.go:12-44 | On success every market converted: a known one to a market, an unknown one to nothing. The kept markets are exactly those conversions. |
| Markets.UnknownTemplateIsDropped | internal/transform/markets.go:20-24 | A market of unknown template is reported and dropped with no effect on the others. |
| Outcomes.NormalizePoints | internal/transform/outcomes.go:89-94 | A trailing comma is dropped, and any other text is returned as is. |
| Outcomes.NormalizePointsInverts | internal/transform/outcomes.go:89-94 | Appending a comma and normalising gives the text back. |
| Outcomes.PointsFromMarket | internal/transform/outcomes.go:96-106 | An empty handicap gives no points. Otherwise the parsed handicap, with a parse failure as a points error. |
| Outcomes.HandicapText | internal/transform/outcomes.go:109-115 | The decimal handicap is preferred, then the raw one, and the result is none only when both are empty. |
| Outcomes.PointsFromPrice | internal/transform/outcomes.go:108-123 | No points without handicap text. Otherwise the preferred text, trailing comma dropped, parsed, with failure as a points error. |
| Outcomes.TypeOf | internal/transform/outcomes.go:138-148 | The fixed outcome names are consulted before the participants. The result is absent exactly when neither has the name. |
| Outcomes.TablePrecedesParticipants | internal/transform/outcomes.go:138-148 | A fixed outcome name keeps its fixed type even when a participant has the same name. |
| Outcomes.AvailabilityPrecedence | internal/transform/outcomes.go:125-136 | A readable availability flag decides. Without one, the outcome is available exactly when it is displayed and not suspended. There is no answer only when both flags are unreadable. |
| Outcomes.Convert | internal/transform/outcomes.go:34-83 | An outcome without a price crashes. An outcome with one converts exactly when three things are readable: its decimal price, for a spread its handicap, and its fixed-odds flag. Otherwise the first unreadable one, in that order, gives its error: price, points, then fixed-odds. An unreadable availability is no error. A kept outcome has: the feed id; the looked-up type; a name exactly when it is a competitor; the first price's odds; the availability (false when unreadable); and the market's points, or for a spread its price's. A converting outcome with no type is skipped. |
| Outcomes.ConvertAllAppend | internal/transform/outcomes.go:33-85 | A single outcome gives its conversion when typed, nothing when untyped, or its error. Conversion distributes over concatenation: results in order, and the first error wins. |
| Outcomes.ConvertAllSucceeds | internal/transform/outcomes.go:33-85 | A market's outcomes convert exactly when each one does. The kept outcomes are then exactly the conversions of the typed ones, each named exactly when it is a competitor. |
| Outcomes.SkipsUntyped | internal/transform/outcomes.go:59-63 | An untyped outcome whose price, spread handicap and fixed-odds flag are readable is skipped, not an error, whatever its availability flags. An untyped outcome with one of those unreadable is still an error. |
| Outcomes.GetOutcomes | internal/transform/outcomes.go:20-31 | Outside spreads the market's handicap is read first, and an unreadable one fails the market. Every kept outcome then carries those points. Spread markets never read the market's handicap. |
| Outcomes.SharedPoints | internal/transform/outcomes.go:20-31 | Outside spreads every kept outcome carries the market's points. In a spread every kept outcome carries the points read from its own first price. |
| OutcomeTypes.TableShape | internal/mapping/outcome_types.go:8-14 | The fixed names are exactly Draw, Over, Under, Odd and Even, each with its own type. |
| OutcomeTypes.MapParticipantsKeys | internal/mapping/outcome_types.go:16-33 | The result is keyed by exactly the participants' names. |
| OutcomeTypes.MapParticipantsLastWins | internal/mapping/outcome_types.go:16-33 | Each name carries the type of the last participant bearing it: home to home, away to away, competitor to competitor, unknown to the zero type. |
| MarketTypes.NameOf | internal/mapping/market_types.go:38-69 | Every market type has a template name that the table maps back to it. |
| MarketTypes.NameOfInvertsTable | internal/mapping/market_types.go:38-69 | Looking a name up and taking the result's name gives the name back. |
| MarketTypes.TableIsBijective | internal/mapping/market_types.go:38-69 | Distinct names map to distinct types, and every market type is reached. |
| MarketTypes.PlayerTemplatesArePlayerTypes | internal/mapping/market_types.go:65-68 | The four player templates are exactly the names mapped to player types. |
| MarketTypes.NamedEntries | internal/mapping/market_types.go:41-68 | "Money Line" maps to money line and "Outright" to outright. The two spread names map to the spread types, and the player names to the player types. |

## Left out

- HTTP and the long-poll transport (`getUpdates`, `getEvents`, the client package): foreign I/O. A failed request or a non-200 status is the `None` response of `Sessions.Complete`.
- Goroutines, channels, the session lock and the timers: each session transition is one sequential call, and the polling loops themselves are not modelled.
- Redis: each hash is a `map`, and its key listing is a sequence that enumerates the keys. Store I/O errors are not modelled, because a map operation cannot fail.
- JSON decoding, protobuf marshalling, `strconv.ParseFloat` and RFC 3339 time parsing are function parameters. Their behaviour is not modelled.
- Float arithmetic: odds are computed over exact reals, so float64 rounding of `num/den` is not modelled.
- OddsForms.UpdateOdds: a zero denominator leaves the decimal and American forms as they were, because exact reals have no infinities or NaN. Go stores these instead. For a positive numerator: decimal `+Inf`, American `+Inf`. For a negative numerator: decimal `-Inf`, American `0`, since -100 / -Inf is zero. For 0/0: decimal and American `NaN`.
- OddsForms.AmericanOdds: the text is the plain decimal rendering of the rounded value. `fmt.Sprint` of a float64 uses the shortest `%g` form, which switches to exponent notation (`1e+06`) from a magnitude of 1e6. That happens for ratios of 10000 and above, or at most 0.0001. Those renderings are not modelled.
- `time.Now`-based window times (`getRequestTimes`): the formatted start and end times are parameters of `Reconcile.EventsUrl`.
- The log of unhandled market types (`stringifyMarketTypes`) has no effect, because its only call is commented out. Only the set is modelled.
- EventFields.NormalizeLinkPart: lower-cases ASCII letters only. Go's `strings.ToLower` also maps non-ASCII letters.
- EventFields.Link is written as the link's path segments joined by `/`. That is the same text as the format string.
- EventFields.NormalizeLinkPart: the example "2023/2024 Spanish ACB" is covered by the pointwise contract, but is not proved as a literal.
- Outcomes.NormalizePoints requires a non-empty text, because Go would index out of range. Its only caller passes non-empty text.
- The Go code compares a participant's type pointer with a constant in `getName` and in `MapParticipantsToOutcomeTypes`. The model compares the type itself, as `getParticipants` does.
- The catalog codes (home, away, suspended outcome status) are not shown in the repository's record package. They are parameters, assumed distinct where it matters.
- `transform.TransformUpdates` is not part of this model. `Wire.Decode` is a reconstruction from the helpers it would compose.
- `handleEventUpdate` is modelled, but the decoder never yields event records, so from a decoded body it is unreachable. `Sessions.FinishedEventIsStoredAgain` exhibits the as-written re-store on a hand-built response.
- The superseded scheduler files, the classes cache, the configuration and the entry points are not modelled.
