/**
  The scan itself, the body of `main` (main.py:173-220): one map query per tile, and
  for each marker returned the dedup and country filter, the two-tier enrichment, the
  write-back, the lazy header and the data row.
*/
module Pipeline {
  import opened Wrappers
  import opened Grid
  import opened Enrichment
  import opened Sink
  import opened Ledger
  import opened Sequences

  /** The scan's collaborators. `search(i, box)` is the answer to the i-th map query, for
      `box`: the markers of its `markers` field (empty when the field is missing), or `None`
      when the request failed. `details` answers the two detail fetches by store id;
      `extractUrls` is the markup parser of `extract_urls_from_html`. */
  datatype Services = Services(
    search: (nat, Box) -> Option<seq<Marker>>,
    details: Details,
    extractUrls: string -> (string, string))

  /** The record written for a kept marker: enriched by its id, then written back. */
  function Completed(m: Marker, services: Services): Marker
  {
    Finalize(Enrich(m, services.details.store(IdOf(m)), services.details.dealer(IdOf(m))),
             services.extractUrls)
  }

  /** The data rows of a list of kept markers. */
  function RowsFor(ms: seq<Marker>, services: Services): seq<Row>
    decreases |ms|
  {
    if ms == [] then [] else [DataRow(Completed(ms[0], services))] + RowsFor(ms[1..], services)
  }

  /** The file as written, `header` being the header row: the header, lazily, before the
      first data row, and only if there is one. */
  function Emitted(header: Row, rows: seq<Row>): seq<Row>
  {
    if rows == [] then [] else [header] + rows
  }

  /** Writing a data row to the file `out`: the header first, unless it was written already. */
  function WriteLazily(out: seq<Row>, wroteHeader: bool, header: Row, row: Row): seq<Row>
  {
    out + (if wroteHeader then [] else [header]) + [row]
  }

  /** Writing rows one by one, lazily, yields the file `Emitted` describes: the header appears
      once, immediately before the first data row, and not at all without one. */
  lemma WriteLazilyEmits(header: Row, rows: seq<Row>, row: Row)
    ensures WriteLazily(Emitted(header, rows), rows != [], header, row) == Emitted(header, rows + [row])
  {
    if rows != [] {
      assert [header] + rows + [row] == [header] + (rows + [row]);
    } else {
      assert [] + [header] + [row] == [header] + ([] + [row]);
    }
  }

  /** The data rows of a file: all but the header, if anything was written. */
  function DataRowsOf(out: seq<Row>): seq<Row>
  {
    if out == [] then [] else out[1..]
  }

  /** A file that is empty, or starts with the header and holds a data row. */
  predicate WellFormed(out: seq<Row>, header: Row)
  {
    out != [] ==> |out| >= 2 && out[0] == header
  }

  /** A lazy write keeps the file well formed and adds the row after the data rows already
      there. */
  lemma WriteLazilyAppends(out: seq<Row>, header: Row, row: Row)
    requires WellFormed(out, header)
    ensures WellFormed(WriteLazily(out, out != [], header, row), header)
    ensures DataRowsOf(WriteLazily(out, out != [], header, row)) == DataRowsOf(out) + [row]
  {
    var out' := WriteLazily(out, out != [], header, row);
    if out == [] {
      assert out' == [header, row];
    } else {
      assert out' == out + [row];
      assert out'[1..] == out[1..] + [row];
    }
  }

  /** The markers a query answered with; a failed query contributes none. */
  function Answered(response: Option<seq<Marker>>): seq<Marker>
  {
    match response
    case Some(ms) => ms
    case None => []
  }

  /** The markers of all tiles in query order, the i-th query answered by `search(first + i, _)`. */
  function MarkerStream(boxes: seq<Box>, search: (nat, Box) -> Option<seq<Marker>>, first: nat): seq<Marker>
    decreases |boxes|
  {
    if boxes == [] then []
    else Answered(search(first, boxes[0])) + MarkerStream(boxes[1..], search, first + 1)
  }

  /** One more tile adds its answer at the end of the stream. */
  lemma {:induction false} MarkerStreamAppend(boxes: seq<Box>, box: Box, search: (nat, Box) -> Option<seq<Marker>>, first: nat)
    ensures MarkerStream(boxes + [box], search, first)
         == MarkerStream(boxes, search, first) + Answered(search(first + |boxes|, box))
    decreases |boxes|
  {
    if boxes == [] {
      assert [box][1..] == [];
    } else {
      assert (boxes + [box])[1..] == boxes[1..] + [box];
      MarkerStreamAppend(boxes[1..], box, search, first + 1);
    }
  }

  /** The stream of the first i + 1 tiles extends that of the first i by the answer to the
      i-th query, and equals it when that query failed. */
  lemma MarkerStreamPrefix(boxes: seq<Box>, i: nat, search: (nat, Box) -> Option<seq<Marker>>)
    requires i < |boxes|
    ensures MarkerStream(boxes[..i + 1], search, 0) == MarkerStream(boxes[..i], search, 0) + Answered(search(i, boxes[i]))
    ensures search(i, boxes[i]).None? ==> MarkerStream(boxes[..i + 1], search, 0) == MarkerStream(boxes[..i], search, 0)
  {
    assert boxes[..i + 1] == boxes[..i] + [boxes[i]];
    MarkerStreamAppend(boxes[..i], boxes[i], search, 0);
    assert MarkerStream(boxes[..i], search, 0) + [] == MarkerStream(boxes[..i], search, 0);
  }

  lemma {:induction false} RowsForConcat(a: seq<Marker>, b: seq<Marker>, services: Services)
    ensures RowsFor(a + b, services) == RowsFor(a, services) + RowsFor(b, services)
    decreases |a|
  {
    if a == [] {
      assert a + b == b;
    } else {
      assert (a + b)[0] == a[0] && (a + b)[1..] == a[1..] + b;
      RowsForConcat(a[1..], b, services);
    }
  }

  /** One more marker in the stream adds its row exactly when the ledger keeps it. */
  lemma RowsAfterMarker(processed: seq<Marker>, marker: Marker, services: Services)
    ensures RowsFor(Admitted({}, processed + [marker]), services)
         == RowsFor(Admitted({}, processed), services)
            + (if IdOf(marker) !in Ids(processed) && CountryAllowed(marker)
               then [DataRow(Completed(marker, services))] else [])
  {
    var step := if IdOf(marker) !in Ids(processed) && CountryAllowed(marker) then [marker] else [];
    assert {} + Ids(processed) == Ids(processed);
    AdmittedAppend({}, processed, marker);
    RowsForConcat(Admitted({}, processed), step, services);
    assert [marker][1..] == [];
  }

  /** One row per marker, the k-th row being the k-th marker's. */
  lemma {:induction false} RowsForAt(ms: seq<Marker>, services: Services)
    ensures |RowsFor(ms, services)| == |ms|
    ensures forall k :: 0 <= k < |ms| ==> RowsFor(ms, services)[k] == DataRow(Completed(ms[k], services))
    decreases |ms|
  {
    if ms != [] {
      RowsForAt(ms[1..], services);
    }
  }

  /** The owner of the scan's mutable state (the seen ids, the header flag and the rows
      written to the output file), configured with its collaborators at construction. */
  class Scraper {
    const services: Services
    /** The header row written before the first data row. */
    const header: Row
    var seenIds: set<StoreId>
    var wroteHeader: bool
    var output: seq<Row>
    /** Every marker handled so far, in order. */
    ghost var processed: seq<Marker>

    /** The seen ids are exactly those of the markers handled so far, including rejected
        ones. The header flag records whether anything was written; what was written starts
        with the header, only ever written together with a data row, and the data rows are
        those of the markers the ledger keeps, in order. */
    ghost predicate Valid()
      reads this
    {
      && seenIds == Ids(processed)
      && wroteHeader == (output != [])
      && WellFormed(output, header)
      && DataRowsOf(output) == RowsFor(Admitted({}, processed), services)
    }

    /** What was written is the header followed by the data rows, or nothing. */
    lemma OutputIsEmitted()
      requires Valid()
      ensures output == Emitted(header, RowsFor(Admitted({}, processed), services))
    {
    }

    constructor (services: Services)
      ensures Valid() && this.services == services && header == HeaderRow()
      ensures seenIds == {} && !wroteHeader && output == [] && processed == []
    {
      this.services := services;
      header := HeaderRow();
      seenIds := {};
      wroteHeader := false;
      output := [];
      processed := [];
    }

    /** `write_csv_header`. */
    method WriteHeader()
      modifies this`output
      ensures output == old(output) + [header]
    {
      output := output + [header];
    }

    /** `write_csv_row`. */
    method WriteRow(record: Marker)
      modifies this`output
      ensures output == old(output) + [DataRow(record)]
    {
      output := output + [DataRow(record)];
    }

    /** A kept record's row, preceded by the header when it is the first row written. */
    method Emit(record: Marker)
      modifies this`output, this`wroteHeader
      ensures output == WriteLazily(old(output), old(wroteHeader), header, DataRow(record))
      ensures wroteHeader
    {
      if !wroteHeader {
        WriteHeader();
        wroteHeader := true;
      }
      WriteRow(record);
    }

    /** One iteration of the marker loop. A marker whose id was seen is skipped; otherwise
        its id becomes seen, even when its country then fails the filter. A kept marker is
        enriched, written back and written as a row, preceded by the header when it is the
        first row. */
    method ProcessMarker(marker: Marker)
      requires Valid()
      modifies this
      ensures Valid()
      ensures processed == old(processed) + [marker]
      ensures seenIds == old(seenIds) + {IdOf(marker)}
      ensures output == if IdOf(marker) !in old(seenIds) && CountryAllowed(marker)
                        then WriteLazily(old(output), old(wroteHeader), header, DataRow(Completed(marker, services)))
                        else old(output)
    {
      RowsAfterMarker(processed, marker, services);
      IdsAppend(processed, marker);
      processed := processed + [marker];
      var storeId := IdOf(marker);
      if storeId in seenIds {
        assert seenIds + {storeId} == seenIds;
        return;
      }
      seenIds := seenIds + {storeId};
      if !CountryAllowed(marker) {
        return;
      }
      var record, _ := FetchStoreData(storeId, marker, services.details);
      record := WriteBack(record, services.extractUrls);
      WriteLazilyAppends(output, header, DataRow(record));
      Emit(record);
    }

    /** The markers of one tile, in order: the rows written are those of the markers the
        ledger keeps given the ids seen before the tile, and every marker's id becomes seen. */
    method ProcessBox(markers: seq<Marker>)
      requires Valid()
      modifies this
      ensures Valid()
      ensures processed == old(processed) + markers
      ensures seenIds == old(seenIds) + Ids(markers)
      ensures DataRowsOf(output) == DataRowsOf(old(output)) + RowsFor(Admitted(old(seenIds), markers), services)
    {
      var i := 0;
      while i < |markers|
        invariant 0 <= i <= |markers|
        invariant Valid()
        invariant processed == old(processed) + markers[..i]
      {
        assert markers[..i + 1] == markers[..i] + [markers[i]];
        ProcessMarker(markers[i]);
        i := i + 1;
      }
      assert markers[..i] == markers;
      IdsConcat(old(processed), markers);
      AdmittedConcat({}, old(processed), markers);
      assert {} + Ids(old(processed)) == old(seenIds);
      RowsForConcat(Admitted({}, old(processed)), Admitted(old(seenIds), markers), services);
    }

    /** The tile loop of `main`: the i-th tile is queried as the i-th query; a failed query
        contributes nothing, an answered one has its markers handled in order. */
    method ScanTiles(boxes: seq<Box>)
      requires Valid()
      modifies this
      ensures Valid()
      ensures processed == old(processed) + MarkerStream(boxes, services.search, 0)
    {
      var i := 0;
      while i < |boxes|
        invariant 0 <= i <= |boxes|
        invariant Valid()
        invariant processed == old(processed) + MarkerStream(boxes[..i], services.search, 0)
      {
        var response := services.search(i, boxes[i]);
        MarkerStreamPrefix(boxes, i, services.search);
        ConcatAssociative(old(processed), MarkerStream(boxes[..i], services.search, 0), Answered(response));
        if response.Some? {
          ProcessBox(response.value);
        }
        i := i + 1;
      }
      assert boxes[..i] == boxes;
    }
  }

  /** `main`, over the grid of the given ranges (`main` itself scans `LatitudeRanges` and
      `LongitudeRanges`): the grid is generated and scanned tile by tile; the result is what
      the output file holds. */
  method Scrape(lats: seq<Range>, lngs: seq<Range>, services: Services) returns (output: seq<Row>)
    ensures output == Emitted(HeaderRow(), RowsFor(Admitted({}, MarkerStream(GridTiles(lats, lngs), services.search, 0)), services))
  {
    var scraper := new Scraper(services);
    var boxes := GenerateBoundingBoxes(lats, lngs);
    scraper.ScanTiles(boxes);
    assert scraper.processed == MarkerStream(boxes, services.search, 0);
    scraper.OutputIsEmitted();
    output := scraper.output;
  }

  /** In a kept marker's row, every column other than the two URL columns shows the
      marker's own value when it had one: enrichment never overwrites. In particular the
      country column always shows ES, PT or AD. */
  lemma KeptRowKeepsMarkerFields(m: Marker, services: Services, i: int)
    requires 0 <= i < |Fields| && Fields[i] in m
    requires Fields[i] != WebsiteUrl && Fields[i] != MapsUrl
    ensures |DataRow(Completed(m, services))| == |Fields|
    ensures DataRow(Completed(m, services))[i] == m[Fields[i]]
  {
    var enriched := Enrich(m, services.details.store(IdOf(m)), services.details.dealer(IdOf(m)));
    EnrichKeepsMarker(m, services.details.store(IdOf(m)), services.details.dealer(IdOf(m)));
    FinalizeFields(enriched, services.extractUrls);
    DataRowCells(Completed(m, services));
  }

  /** A kept marker's row shows its country, one of ES, PT or AD, in the seventh column. */
  lemma KeptRowCountry(m: Marker, services: Services)
    requires CountryAllowed(m)
    ensures |DataRow(Completed(m, services))| == |Fields|
    ensures DataRow(Completed(m, services))[6] == m["country"] && m["country"] in AllowedCountries
  {
    assert Fields[6] == "country";
    KeptRowKeepsMarkerFields(m, services, 6);
  }

  /** Every data row the scan writes has ES, PT or AD in its country column, and there is
      one row per kept marker. */
  lemma EmittedRowsHaveAllowedCountry(seen: set<StoreId>, ms: seq<Marker>, services: Services)
    ensures |RowsFor(Admitted(seen, ms), services)| == |Admitted(seen, ms)|
    ensures forall r :: r in RowsFor(Admitted(seen, ms), services) ==>
              |r| == |Fields| && r[6] in AllowedCountries
  {
    AdmittedFrom(seen, ms);
    var kept := Admitted(seen, ms);
    RowsForAt(kept, services);
    forall r | r in RowsFor(kept, services)
      ensures |r| == |Fields| && r[6] in AllowedCountries
    {
      var k :| 0 <= k < |kept| && RowsFor(kept, services)[k] == r;
      assert kept[k] in kept;
      KeptRowCountry(kept[k], services);
    }
  }

  /** Two tiles: the first returns stores "1" (ES) and "2" (FR), the second "1" again and
      "3" (PT). The scan writes the header and the rows of "1" and "3", in that order. */
  lemma OverlappingTilesOutput(header: Row, services: Services, b0: Box, b1: Box)
    requires services.search(0, b0) == Some([map["id" := "1", "country" := "ES"], map["id" := "2", "country" := "FR"]])
    requires services.search(1, b1) == Some([map["id" := "1", "country" := "ES"], map["id" := "3", "country" := "PT"]])
    ensures Emitted(header, RowsFor(Admitted({}, MarkerStream([b0, b1], services.search, 0)), services))
         == [header,
             DataRow(Completed(map["id" := "1", "country" := "ES"], services)),
             DataRow(Completed(map["id" := "3", "country" := "PT"], services))]
  {
    var s1, s2, s3 := map["id" := "1", "country" := "ES"], map["id" := "2", "country" := "FR"],
                      map["id" := "3", "country" := "PT"];
    assert [b0, b1][1..] == [b1] && [b1][1..] == [];
    assert MarkerStream([b1], services.search, 1) == [s1, s3] + MarkerStream([], services.search, 2);
    assert Answered(services.search(0, b0)) == [s1, s2];
    assert MarkerStream([b0, b1], services.search, 0) == [s1, s2] + MarkerStream([b1], services.search, 1);
    assert MarkerStream([b0, b1], services.search, 0) == [s1, s2] + [s1, s3];
    OverlappingTilesScenario();
  }
}
