/**
  Row assembly for the CSV sink: the fixed column order `FIELDS`, the localized
  `HEADERS`, and the two row builders of `write_csv_header` and `write_csv_row`
  (main.py:41-69, 135-146). Writing the rows to a file is the `Scraper`'s job.
*/
module Sink {
  import opened Enrichment

  type Row = seq<string>

  /** The output columns, in order. */
  const Fields: seq<string> :=
    ["name", "address", "has_enabled_affiliate", "phone", "city", "state",
     "country", "zip", "website_url", "maps_url", "lat", "lng"]

  /** The column labels written in the header row. */
  const Headers: map<string, string> := map[
    "name" := "Nombre de la tienda",
    "address" := "Dirección",
    "has_enabled_affiliate" := "Afiliado",
    "phone" := "Teléfono",
    "city" := "Ciudad",
    "state" := "Provincia",
    "country" := "País",
    "zip" := "Código postal",
    "website_url" := "Página web",
    "maps_url" := "Google Maps",
    "lat" := "Latitud",
    "lng" := "Longitud"]

  /** The header row: the column labels in column order. */
  function HeaderRow(): Row
  {
    ["Nombre de la tienda", "Dirección", "Afiliado", "Teléfono", "Ciudad", "Provincia",
     "País", "Código postal", "Página web", "Google Maps", "Latitud", "Longitud"]
  }

  /** The header row is `[HEADERS.get(field, field) for field in FIELDS]`, and every column
      has a label, so the fallback to the bare field name is never taken. */
  lemma HeaderRowFromHeaders()
    ensures forall f :: f in Fields ==> f in Headers
    ensures HeaderRow() == seq(|Fields|, i requires 0 <= i < |Fields| => Get(Headers, Fields[i], Fields[i]))
  {
  }

  /** `[marker.get(field, "") for field in FIELDS]`. */
  function DataRow(m: Marker): Row
  {
    seq(|Fields|, i requires 0 <= i < |Fields| => Get(m, Fields[i], ""))
  }

  /** A data row has one cell per column, in column order, empty for a field the record
      lacks. */
  lemma DataRowCells(m: Marker)
    ensures |DataRow(m)| == |Fields| == 12
    ensures forall i :: 0 <= i < |Fields| ==> DataRow(m)[i] == Get(m, Fields[i], "")
  {
  }

  /** Two records give the same row exactly when they agree (absence reading as "") on
      every column: fields outside `Fields` never reach the output. */
  lemma DataRowDeterminedByFields(m1: Marker, m2: Marker)
    ensures DataRow(m1) == DataRow(m2) <==> forall f :: f in Fields ==> Get(m1, f, "") == Get(m2, f, "")
  {
    DataRowCells(m1);
    DataRowCells(m2);
    if DataRow(m1) == DataRow(m2) {
      forall f | f in Fields
        ensures Get(m1, f, "") == Get(m2, f, "")
      {
        var i :| 0 <= i < |Fields| && Fields[i] == f;
        assert DataRow(m1)[i] == DataRow(m2)[i];
      }
    }
  }
}
