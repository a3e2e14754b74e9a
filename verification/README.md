# Store-locator scraper, modelled in Dafny

`main.py` scans a geographic grid for store markers. Its loop runs as follows:
- each tile of the grid is sent as one map query;
- each marker returned is deduplicated by store id and filtered by country (ES, PT or AD);
- a kept marker is enriched from a store-detail source, falling back to a dealer-detail source, with fill-only merges;
- its website URL, maps URL and affiliate flag are written back;
- it is written as one CSV row in a fixed 12-column order, preceded, lazily, by a localized header row.

This project models that core:

- `grid.dfy` (module `Grid`): `generate_bounding_boxes` as a method with the source's nested `while` loops, proved against the recursive specification `GridTiles`. Coordinates are integers counting quarter degrees. Every configured value (47.0, 32.75, -28.5, …) and the step 1.5 are whole quarters, so the stepping is exact, as it is in binary floating point.
- `enrichment.dfy` (module `Enrichment`): markers as maps from field name to value text.
  - `fetch_store_data` is a method: the store source first, then the dealer source, each merged with a `setdefault` loop.
  - It is specified by the pure functions `FillOnly` and `Enrich`.
  - The write-back is the method `WriteBack`, specified by `Finalize`.
- `sink.dfy` (module `Sink`): `FIELDS`, `HEADERS`, and the header and data rows built by `write_csv_header` and `write_csv_row`.
- `ledger.dfy` (module `Ledger`): the seen-id ledger and country filter, as a specification over the stream of markers. `Admitted(seen, ms)` lists the markers that go on to be written.
- `pipeline.dfy` (module `Pipeline`):
  - the class `Scraper` owns the mutable state of `main`: the seen ids, the header flag and the rows written;
  - its ghost `processed` records every marker handled;
  - `Valid()` ties the fields to the ledger specification;
  - `Scrape` is `main`.

  The network and the markup parser are collaborators, passed as function values in `Services`:
  - `search(i, box)` answers the i-th map query;
  - `details.store(id)` and `details.dealer(id)` answer the detail fetches;
  - `extractUrls` stands for `extract_urls_from_html`.

  `None` stands for any failure of a request, its status or its body.
- `sequences.dfy` (module `Sequences`): the regrouping of concatenations that the grid generator and the scan both use.

## Model

| member | source | states |
|---|---|---|
| Grid.GenerateBoundingBoxes | main.py:149-170 | the nested loops yield exactly the tiles of `GridTiles`: range pairs in `zip` order, each latitude row from north to south, each row from west to east |
| Grid.RowTilesFramed | main.py:161-167 | every tile of a latitude row has its north-east corner at centre + 1.5° and its south-west corner at centre − 1.5° on both axes |
| Grid.PairTilesFramed | main.py:159-170 | the same corner offsets hold for every tile of one range pair |
| Grid.GridTilesFramed | main.py:155-170 | the same corner offsets hold for every box the generator yields |
| Grid.RowTilesAt | main.py:160-168 | the k-th tile of a row is centred k steps of 1.5° east of the start longitude |
| Grid.RowTilesCount | main.py:160-168 | a row has floor((end_lng − start_lng)/1.5) + 1 tiles, and none when start_lng > end_lng |
| Grid.RowTilesMember | main.py:160-168 | a tile is in a row iff it lies on the row's latitude, between start_lng and end_lng, a whole number of steps east of start_lng |
| Grid.PairTilesCount | main.py:158-170 | a range pair yields (floor((start_lat − end_lat)/1.5) + 1) · (floor((end_lng − start_lng)/1.5) + 1) tiles, and zero when either range runs the wrong way |
| Grid.PairTilesMember | main.py:158-170 | a tile belongs to a pair iff its latitude is a whole number of steps south of start_lat, not below end_lat, and its longitude a whole number of steps east of start_lng, not above end_lng |
| Grid.DegeneratePairIsOneTile | main.py:155-170 | a pair with start = end on both axes, such as (32.75, 32.75)/(−17, −17), yields exactly one tile, centred on that point |
| Grid.GridTilesCount | main.py:155-157 | the grid's size is the sum, over the pairs `zip` forms, of the pair counts; surplus ranges on the longer list are ignored |
| Grid.ConfiguredGridSize | main.py:12-15 | the configured ranges and step give 12·15 + 3·6 + 1 + 1 = 200 tiles |
| Enrichment.FillOnlyFields | main.py:113-114 | after a fill-only merge the keys are the marker's plus the payload's; a key already on the marker keeps its old value; each new key takes the payload's value |
| Enrichment.MergeFillOnly | main.py:113-114 | the `setdefault` loop over the payload's keys, in any order, produces the fill-only merge |
| Enrichment.FillOnlyExample | main.py:113-114 | {a: 1} merged with {a: 2, b: 3} is {a: 1, b: 3} |
| Enrichment.EnrichKeepsMarker | main.py:104-132 | enrichment never removes or overwrites a field of the marker, and leaves the marker unchanged when both fetches fail |
| Enrichment.EnrichIgnoresDealerOnStoreSuccess | main.py:109-116 | when the store fetch succeeds the result is its fill-only merge, whatever the dealer source would answer |
| Enrichment.EnrichNewField | main.py:109-132 | a field the marker lacks appears iff the store payload has it (store fetch succeeded) or else the dealer payload has it (store failed, dealer succeeded), and takes that payload's value |
| Enrichment.FetchStoreData | main.py:104-132 | the sources consulted are [store] when the store fetch succeeds and [store, dealer] otherwise, each at most once; the marker ends as the two-tier fill-only enrichment (the scan ignores `consulted`; `Enrichment.EnrichIgnoresDealerOnStoreSuccess` states the same fact about `Enrich`) |
| Enrichment.FinalizeFields | main.py:206-212 | after write-back the record holds `website_url`, `maps_url` and `has_enabled_affiliate`: the URLs are the parser's answer for the record's `store_html` ("" markup when absent); the affiliate flag is its value after the merge, "" when absent; every other field is unchanged |
| Enrichment.WriteBack | main.py:206-212 | the three assignments into the record produce the written-back record |
| Enrichment.BothFetchesFail | main.py:118-132 | a marker without markup whose two fetches fail keeps its other fields and gets empty URLs (overwriting any it had), given a parser that finds nothing in empty markup, plus its own affiliate value or "" |
| Sink.HeaderRowFromHeaders | main.py:135-139 | every column has a label, so the `HEADERS.get(field, field)` fallback never fires; the header row is the labels in `FIELDS` order |
| Sink.DataRowCells | main.py:142-146 | a data row has exactly 12 cells, in `FIELDS` order, each the record's value or "" when absent |
| Sink.DataRowDeterminedByFields | main.py:142-146 | two records give the same row iff they agree, reading absence as "", on every column; other fields never reach the output |
| Ledger.AdmittedStep | main.py:194-202 | a marker is kept iff its id is unseen and its country passes; either way its id is seen afterwards |
| Ledger.AdmittedConcat | main.py:193-202 | the markers kept from one tile after another are those kept from the first, then those kept from the second against every id the first showed, rejected ones included |
| Ledger.AdmittedAppend | main.py:193-202 | a marker later in the stream is kept iff its id appeared on no earlier marker, whatever the earlier markers' countries, and its country passes; kept markers stay in first-sighting order |
| Ledger.AdmittedFrom | main.py:194-202 | every kept marker comes from the stream, had an unseen id, and has country ES, PT or AD |
| Ledger.AdmittedDistinct | main.py:194-199 | no two kept markers share an id |
| Ledger.SeenIdSkipped | main.py:196-197 | a marker whose id was seen is skipped whatever its country |
| Ledger.RejectedIdStaysRejected | main.py:199-202 | an id rejected by the country filter is seen from then on: no later marker with that id is kept, even one whose country would pass |
| Ledger.RepeatedIdKeptAtMostOnce | main.py:194-199 | presenting the same id twice gives at most one kept marker |
| Ledger.OverlappingTilesScenario | main.py:193-202 | stores 1 (ES) and 2 (FR) followed by 1 (ES) and 3 (PT) keep 1 and then 3 |
| Pipeline.WriteLazilyEmits | main.py:214-218 | writing rows one at a time with the header flag yields the header once, immediately before the first row, and no header without a row |
| Pipeline.WriteLazilyAppends | main.py:214-218 | a lazy write keeps the file well formed (empty, or header plus at least one row) and appends exactly one data row |
| Pipeline.MarkerStreamAppend | main.py:180-192 | one more tile adds its query's markers after those of the earlier tiles; a failed query adds none |
| Pipeline.MarkerStreamPrefix | main.py:183-192 | after i + 1 tiles the stream is that of i tiles plus the i-th query's markers, unchanged when that query failed |
| Pipeline.RowsAfterMarker | main.py:193-218 | one more marker in the stream adds its row exactly when the ledger keeps it |
| Pipeline.Scraper.OutputIsEmitted | main.py:214-218 | what was written is the header followed by the rows of the kept markers, or nothing when none was kept |
| Pipeline.Scraper.constructor | main.py:174-175 | the scan starts with no seen ids, the header flag clear and nothing written |
| Pipeline.Scraper.WriteHeader | main.py:135-139 | the header row is appended to the output |
| Pipeline.Scraper.WriteRow | main.py:142-146 | the record's data row is appended to the output |
| Pipeline.Scraper.Emit | main.py:214-218 | the header is written first iff it had not been, then the row; the flag is set afterwards |
| Pipeline.Scraper.ProcessMarker | main.py:193-218 | the marker's id joins the seen ids; if it was unseen and the country passes, its enriched, written-back row is written lazily, otherwise nothing is written; the ledger invariant is kept |
| Pipeline.Scraper.ProcessBox | main.py:192-218 | one tile's markers: the rows written are those of the markers the ledger keeps against the ids seen before the tile; every marker's id becomes seen |
| Pipeline.Scraper.ScanTiles | main.py:180-220 | the tiles are queried in order, the i-th as query i; a failed query contributes nothing; the markers handled are the stream of all answers |
| Pipeline.Scrape | main.py:173-220 | the file holds the header and then one row per kept marker of the grid's marker stream, in first-sighting order, or is empty when no marker is kept |
| Pipeline.KeptRowKeepsMarkerFields | main.py:204-218 | in a kept marker's row, every column other than the two URL columns shows the marker's own value when it had one (the affiliate column too) |
| Pipeline.KeptRowCountry | main.py:201-218 | a kept marker's row shows its country, ES, PT or AD, in the country column |
| Pipeline.EmittedRowsHaveAllowedCountry | main.py:193-218 | there is one row per kept marker, and every row written has 12 cells and ES, PT or AD in its country column |
| Pipeline.OverlappingTilesOutput | main.py:180-218 | two overlapping tiles answering stores 1 (ES), 2 (FR) and 1 (ES), 3 (PT) give the header and the rows of 1 and 3, in that order |

## Left out

- HTTP requests, `raise_for_status` and `.json()` (main.py:110-112, 123-125, 184-186) are not modelled. Every failure of a fetch is `None`; a success is its decoded object.
- `search` is a function of the query index and the tile, so repeated queries for one tile may answer differently.
- `details` is a function of the store id. This loses nothing, because each kept id is fetched once (`Ledger.AdmittedDistinct`).
- `extract_urls_from_html` (main.py:91-101) is an uninterpreted parameter, because it uses an HTML parser. Only `Enrichment.BothFetchesFail` requires anything of it: that it finds no URLs in empty markup.
- Pipeline.Scrape: the markup parser is total, but the real one raises KeyError on a matched anchor without `href` (main.py:99-100); its call at main.py:207 is outside any `try`, so such a marker ends the whole scan and the file keeps only the rows written before it. The model always goes on to the next marker.
- `build_map_url` (main.py:72-88) and `MAP_PARAMS` are left out: the query text is not part of the model, only the tile it encodes.
- `time.sleep` (main.py:220) and `print` (main.py:119, 189) are left out. They have no logical content. A failed query's `continue` also skips that tile's pause.
- Opening the output file and `csv.writer` quoting (main.py:177-178) are left out. The file is the sequence of rows written, each a sequence of cell texts.
- JSON values other than text are left out. Field values are the text they are written out as, so non-string values and the crash when a response or marker is not an object are not modelled. A payload that is not an object fails inside the `try` before any field is merged, which is the `None` case.
- Floating point is left out. Coordinates are exact integers in quarter degrees, which agrees with the binary floats for every configured value.
- `Pipeline.Scrape` takes the latitude and longitude ranges as parameters; `main` scans `LatitudeRanges` and `LongitudeRanges`. The configured grid's size is stated through `GridCount` (`Grid.ConfiguredGridSize` with `Grid.GridTilesCount`).
- Marker mutation is modelled on values: the marker dict is owned by the loop iteration that enriches it, so no aliasing is lost.
- The model follows the code in two places where a prose description of the scraper might read otherwise:
  - the admission check rejects an unseen id whose country fails already on its first presentation;
  - a range walked the wrong way gives no tiles rather than floor(|end − start|/1.5) + 1.
