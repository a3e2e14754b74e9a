/**
  The detail reconciliation step: `fetch_store_data` (main.py:104-132) and the
  write-back of the URL and affiliate fields that follows it in the marker loop
  (main.py:206-212).

  A marker, and every detail payload, is a JSON object; its values are modelled
  as the text they are written out as.
*/
module Enrichment {
  import opened Wrappers

  /** A marker or detail payload: field name to value. */
  type Marker = map<string, string>

  /** `marker.get("id")`: a marker without an id carries `None` as its id. */
  type StoreId = Option<string>

  /** `m.get(key, default)`. */
  function Get(m: Marker, key: string, default: string): string
  {
    if key in m then m[key] else default
  }

  /** The two detail sources queried by store id, in precedence order. `None` is any
      failure of the request, of its status or of its body. */
  datatype Details = Details(store: StoreId -> Option<Marker>, dealer: StoreId -> Option<Marker>)

  /** The detail catalogues, named in the order they may be consulted. */
  datatype Source = StoreSource | DealerSource

  /** Fill-only merge: the payload's fields extended by the marker's, which win on any
      shared key. */
  function FillOnly(marker: Marker, payload: Marker): Marker
  {
    payload + marker
  }

  /** The merge keeps every field of the marker and adds exactly the payload's other fields. */
  lemma FillOnlyFields(marker: Marker, payload: Marker)
    ensures FillOnly(marker, payload).Keys == marker.Keys + payload.Keys
    ensures forall k :: k in marker ==> FillOnly(marker, payload)[k] == marker[k]
    ensures forall k :: k in payload && k !in marker ==> FillOnly(marker, payload)[k] == payload[k]
  {
  }

  /** `for k, v in data.items(): marker.setdefault(k, v)`, one key at a time. */
  method MergeFillOnly(marker: Marker, payload: Marker) returns (merged: Marker)
    ensures merged == FillOnly(marker, payload)
  {
    merged := marker;
    var pending := payload.Keys;
    while pending != {}
      invariant pending <= payload.Keys
      invariant merged == FillOnly(marker, payload - pending)
      decreases pending
    {
      var k :| k in pending;
      if k !in merged {
        merged := merged[k := payload[k]];
      }
      pending := pending - {k};
    }
    assert payload - {} == payload;
  }

  /** {a: 1} merged with {a: 2, b: 3} is {a: 1, b: 3}. */
  lemma FillOnlyExample()
    ensures FillOnly(map["a" := "1"], map["a" := "2", "b" := "3"]) == map["a" := "1", "b" := "3"]
  {
  }

  /** The marker after the two-tier fallback: the store payload if that fetch succeeded,
      else the dealer payload if that one did, else the marker as it was. */
  function Enrich(marker: Marker, store: Option<Marker>, dealer: Option<Marker>): Marker
  {
    match store
    case Some(data) => FillOnly(marker, data)
    case None =>
      match dealer
      case Some(data) => FillOnly(marker, data)
      case None => marker
  }

  /** Enrichment never drops or overwrites a field of the marker, and leaves it as it was
      when both fetches fail. */
  lemma EnrichKeepsMarker(marker: Marker, store: Option<Marker>, dealer: Option<Marker>)
    ensures marker.Keys <= Enrich(marker, store, dealer).Keys
    ensures forall k :: k in marker ==> Enrich(marker, store, dealer)[k] == marker[k]
    ensures store.None? && dealer.None? ==> Enrich(marker, store, dealer) == marker
  {
  }

  /** When the store fetch succeeds, whatever the dealer source would answer is irrelevant. */
  lemma EnrichIgnoresDealerOnStoreSuccess(marker: Marker, data: Marker, dealer1: Option<Marker>, dealer2: Option<Marker>)
    ensures Enrich(marker, Some(data), dealer1) == Enrich(marker, Some(data), dealer2) == FillOnly(marker, data)
  {
  }

  /** A field the marker lacks is taken from the store payload if that fetch succeeded,
      otherwise from the dealer payload. */
  lemma EnrichNewField(marker: Marker, store: Option<Marker>, dealer: Option<Marker>, k: string)
    requires k !in marker
    ensures k in Enrich(marker, store, dealer) <==>
              (if store.Some? then k in store.value else dealer.Some? && k in dealer.value)
    ensures k in Enrich(marker, store, dealer) ==>
              Enrich(marker, store, dealer)[k] == (if store.Some? then store.value[k] else dealer.value[k])
  {
  }

  /** The fallback protocol: the store source first; on its failure the dealer source,
      once; the sources consulted are returned in order. */
  method FetchStoreData(storeId: StoreId, marker: Marker, details: Details)
    returns (enriched: Marker, consulted: seq<Source>)
    ensures consulted == if details.store(storeId).Some? then [StoreSource] else [StoreSource, DealerSource]
    ensures enriched == Enrich(marker, details.store(storeId), details.dealer(storeId))
  {
    consulted := [StoreSource];
    var storeData := details.store(storeId);
    if storeData.Some? {
      enriched := MergeFillOnly(marker, storeData.value);
      return;
    }
    consulted := consulted + [DealerSource];
    var dealerData := details.dealer(storeId);
    if dealerData.Some? {
      enriched := MergeFillOnly(marker, dealerData.value);
      return;
    }
    enriched := marker;
  }

  /** The fields written back after enrichment. */
  const WebsiteUrl: string := "website_url"
  const MapsUrl: string := "maps_url"
  const Affiliate: string := "has_enabled_affiliate"
  const StoreHtml: string := "store_html"

  /** The record after write-back: the URLs extracted from the marker's `store_html`
      (empty markup when absent), and the affiliate flag as it stands after the merge,
      empty when absent. `extractUrls` is the markup parser, an opaque collaborator. */
  function Finalize(merged: Marker, extractUrls: string -> (string, string)): Marker
  {
    var (website, maps) := extractUrls(Get(merged, StoreHtml, ""));
    merged[WebsiteUrl := website][MapsUrl := maps][Affiliate := Get(merged, Affiliate, "")]
  }

  /** The three written-back fields are present afterwards, the URLs being the parser's
      answer for the record's markup and the affiliate flag the merged one; every other
      field is left as it was. */
  lemma FinalizeFields(merged: Marker, extractUrls: string -> (string, string))
    ensures var r := Finalize(merged, extractUrls);
      && r.Keys == merged.Keys + {WebsiteUrl, MapsUrl, Affiliate}
      && (r[WebsiteUrl], r[MapsUrl]) == extractUrls(Get(merged, StoreHtml, ""))
      && r[Affiliate] == Get(merged, Affiliate, "")
      && forall k :: k in merged && k != WebsiteUrl && k != MapsUrl && k != Affiliate ==> r[k] == merged[k]
  {
  }

  /** The write-back itself: three assignments into the record. */
  method WriteBack(record: Marker, extractUrls: string -> (string, string)) returns (r: Marker)
    ensures r == Finalize(record, extractUrls)
  {
    r := record;
    var (websiteUrl, mapsUrl) := extractUrls(Get(r, StoreHtml, ""));
    r := r[WebsiteUrl := websiteUrl];
    r := r[MapsUrl := mapsUrl];
    r := r[Affiliate := Get(record, Affiliate, "")];
  }

  /** A marker without markup whose detail fetches both fail keeps its own fields, gains
      empty URLs when the parser finds nothing in empty markup, and keeps its affiliate
      value (empty when it had none). */
  lemma BothFetchesFail(marker: Marker, extractUrls: string -> (string, string))
    requires StoreHtml !in marker
    requires extractUrls("") == ("", "")
    ensures var r := Finalize(Enrich(marker, None, None), extractUrls);
      && r == marker[WebsiteUrl := ""][MapsUrl := ""][Affiliate := Get(marker, Affiliate, "")]
      && r[WebsiteUrl] == "" && r[MapsUrl] == ""
  {
  }
}
