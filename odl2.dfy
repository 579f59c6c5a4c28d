/** License and format extraction for publications of an ODL-over-OPDS-2 feed.
    For each `odl:license` of a publication the importer emits format records,
    one license record, and adds to the running totals of licenses owned and
    licenses available; it then writes them into the publication's circulation
    data, after the formats that were already there. */
module Odl2 {
  import opened Wrappers
  import opened Seqs

  /** Link relation of a license's checkout-initiation link (OPDS 2.0 link relations registry). */
  const BORROW_REL: string := "http://opds-spec.org/acquisition/borrow"
  /** Link relation of a license's status document link. */
  const SELF_REL: string := "self"
  /** Rights status given to every format record produced from a license. */
  const IN_COPYRIGHT: string := "http://librarysimplified.org/terms/rights-status/in-copyright"

  // ---------------------------------------------------------------------
  // The parsed feed (input)
  // ---------------------------------------------------------------------

  /** A link of a license: the relations it carries and its target. */
  datatype Link = Link(rels: set<string>, href: string)

  /** `metadata.protection`: the DRM schemes; the list itself may be missing. */
  datatype Protection = Protection(formats: Option<seq<string>>)

  /** `metadata.terms`: expiry timestamp and concurrency limit, each optional. */
  datatype Terms = Terms(expires: Option<string>, concurrency: Option<int>)

  datatype LicenseMetadata = LicenseMetadata(
    identifier: string,
    formats: seq<string>,
    protection: Option<Protection>,
    terms: Option<Terms>)

  /** One `odl:license` entry of a publication. */
  datatype License = License(metadata: LicenseMetadata, links: seq<Link>)

  /** A publication; its license list may be missing altogether. */
  datatype Publication = Publication(licenses: Option<seq<License>>)

  /** The `checkouts` object of a status document; both counters are optional keys. */
  datatype Checkouts = Checkouts(left: Option<int>, available: Option<int>)

  /** A parsed license status document; the `checkouts` key is optional. */
  datatype StatusDocument = StatusDocument(checkouts: Option<Checkouts>)

  /** What fetching and parsing a status link gives: a document, or an exception
      (transport failure, a body that is not JSON, or JSON of the wrong shape). */
  datatype StatusResponse = Document(doc: StatusDocument) | Raised

  // ---------------------------------------------------------------------
  // The extracted metadata (output)
  // ---------------------------------------------------------------------

  datatype FormatData = FormatData(contentType: Option<string>, drmScheme: Option<string>, rightsUri: string)

  datatype LicenseData = LicenseData(
    identifier: string,
    checkoutUrl: Option<string>,
    statusUrl: Option<string>,
    expires: Option<string>,
    remainingCheckouts: Option<int>,
    concurrentCheckouts: Option<int>)

  /** The exception that aborts a publication: its status link could not be read. */
  datatype ImportError = StatusUnavailable(url: string)

  /** What the license loop builds for one publication. */
  datatype Extraction = Extraction(
    formats: seq<FormatData>,
    licenses: seq<LicenseData>,
    licensesOwned: int,
    licensesAvailable: int)

  // ---------------------------------------------------------------------
  // One license
  // ---------------------------------------------------------------------

  /** The licenses of a publication; a missing list reads as no licenses. */
  function LicensesOf(publication: Publication): seq<License> {
    publication.licenses.GetOr([])
  }

  /** The license's first declared format, if it declares any. */
  function FirstFormat(lic: License): Option<string> {
    if lic.metadata.formats == [] then None else Some(lic.metadata.formats[0])
  }

  /** Index of the first link carrying relation `rel`, or `|links|` when there is none. */
  function FirstWithRel(links: seq<Link>, rel: string): (k: nat)
    ensures k <= |links|
    ensures forall j | 0 <= j < k :: rel !in links[j].rels
    ensures k < |links| ==> rel in links[k].rels
  {
    if links == [] then 0
    else if rel in links[0].rels then 0
    else 1 + FirstWithRel(links[1..], rel)
  }

  /** The href of the first link with relation `rel`, or None. */
  function HrefOfFirst(links: seq<Link>, rel: string): Option<string> {
    var k := FirstWithRel(links, rel);
    if k < |links| then Some(links[k].href) else None
  }

  function CheckoutUrl(lic: License): Option<string> {
    HrefOfFirst(lic.links, BORROW_REL)
  }

  function StatusUrl(lic: License): Option<string> {
    HrefOfFirst(lic.links, SELF_REL)
  }

  /** The status document is requested only when the self link's href is truthy. */
  predicate FetchesStatus(lic: License) {
    StatusUrl(lic).Some? && StatusUrl(lic).value != ""
  }

  /** Processing the license does not raise: either nothing is fetched or the fetch gives a document. */
  predicate Fetchable(lic: License, fetch: string -> StatusResponse) {
    FetchesStatus(lic) ==> fetch(StatusUrl(lic).value).Document?
  }

  predicate AllFetchable(lics: seq<License>, fetch: string -> StatusResponse) {
    forall i | 0 <= i < |lics| :: Fetchable(lics[i], fetch)
  }

  /** Index of the first license whose status link cannot be read, or `|lics|` when there is none. */
  function FirstUnfetchable(lics: seq<License>, fetch: string -> StatusResponse): (k: nat)
    ensures k <= |lics|
    ensures forall j | 0 <= j < k :: Fetchable(lics[j], fetch)
    ensures k < |lics| ==> !Fetchable(lics[k], fetch)
  {
    if lics == [] then 0
    else if !Fetchable(lics[0], fetch) then 0
    else 1 + FirstUnfetchable(lics[1..], fetch)
  }

  /** The status document read for the license, if one was read. */
  function StatusDocumentOf(lic: License, fetch: string -> StatusResponse): Option<StatusDocument> {
    if FetchesStatus(lic) && fetch(StatusUrl(lic).value).Document? then
      Some(fetch(StatusUrl(lic).value).doc)
    else
      None
  }

  /** `status.get("checkouts", {})`. */
  function CheckoutsOf(doc: StatusDocument): Checkouts {
    doc.checkouts.GetOr(Checkouts(None, None))
  }

  function RemainingCheckouts(lic: License, fetch: string -> StatusResponse): Option<int> {
    match StatusDocumentOf(lic, fetch)
    case None => None
    case Some(doc) => CheckoutsOf(doc).left
  }

  function AvailableCheckouts(lic: License, fetch: string -> StatusResponse): Option<int> {
    match StatusDocumentOf(lic, fetch)
    case None => None
    case Some(doc) => CheckoutsOf(doc).available
  }

  function Expires(lic: License): Option<string> {
    match lic.metadata.terms
    case None => None
    case Some(t) => t.expires
  }

  function ConcurrentCheckouts(lic: License): Option<int> {
    match lic.metadata.terms
    case None => None
    case Some(t) => t.concurrency
  }

  /** What the license adds to the licenses-owned total. */
  function Owned(lic: License): (n: int)
    ensures lic.metadata.terms.None? ==> n == 0
    ensures lic.metadata.terms.Some? && lic.metadata.terms.value.concurrency.None? ==> n == 0
    ensures lic.metadata.terms.Some? && lic.metadata.terms.value.concurrency.Some? ==>
              n == lic.metadata.terms.value.concurrency.value
  {
    ConcurrentCheckouts(lic).GetOr(0)
  }

  /** What the license adds to the licenses-available total. */
  function Available(lic: License, fetch: string -> StatusResponse): (n: int)
    ensures !FetchesStatus(lic) ==> n == 0
    ensures FetchesStatus(lic) && fetch(StatusUrl(lic).value).Document? ==>
              n == CheckoutsOf(fetch(StatusUrl(lic).value).doc).available.GetOr(0)
  {
    AvailableCheckouts(lic, fetch).GetOr(0)
  }

  /** The license record built for the license. */
  function Record(lic: License, fetch: string -> StatusResponse): (r: LicenseData)
    ensures r.identifier == lic.metadata.identifier
    ensures r.checkoutUrl == CheckoutUrl(lic) && r.statusUrl == StatusUrl(lic)
    ensures !FetchesStatus(lic) ==> r.remainingCheckouts.None?
    ensures FetchesStatus(lic) && fetch(StatusUrl(lic).value).Document? ==>
              r.remainingCheckouts == CheckoutsOf(fetch(StatusUrl(lic).value).doc).left
    ensures lic.metadata.terms.None? ==> r.expires.None? && r.concurrentCheckouts.None?
    ensures lic.metadata.terms.Some? ==>
              r.expires == lic.metadata.terms.value.expires &&
              r.concurrentCheckouts == lic.metadata.terms.value.concurrency
  {
    LicenseData(
      lic.metadata.identifier,
      CheckoutUrl(lic),
      StatusUrl(lic),
      Expires(lic),
      RemainingCheckouts(lic, fetch),
      ConcurrentCheckouts(lic))
  }

  /** `protection.formats or [None]`: the DRM schemes iterated for a protected license. */
  function SchemesOrNone(p: Protection): seq<Option<string>> {
    if p.formats.None? || p.formats.value == [] then [None]
    else seq(|p.formats.value|, i requires 0 <= i < |p.formats.value| => Some(p.formats.value[i]))
  }

  /** The format records the license contributes. */
  function LicenseFormats(lic: License): seq<FormatData> {
    match lic.metadata.protection
    case None => []
    case Some(p) =>
      var schemes := SchemesOrNone(p);
      seq(|schemes|, i requires 0 <= i < |schemes| => FormatData(FirstFormat(lic), schemes[i], IN_COPYRIGHT))
  }

  /** An unprotected license contributes no format record; a protected one contributes one record
      per DRM scheme, or a single record without DRM when the scheme list is empty or missing; every
      record carries the license's first format and the in-copyright rights status. */
  lemma LicenseFormatsShape(lic: License)
    ensures lic.metadata.protection.None? ==> LicenseFormats(lic) == []
    ensures lic.metadata.protection.Some? ==>
              var p := lic.metadata.protection.value;
              var fs := LicenseFormats(lic);
              if p.formats.None? || p.formats.value == [] then
                fs == [FormatData(FirstFormat(lic), None, IN_COPYRIGHT)]
              else
                |fs| == |p.formats.value| &&
                forall i | 0 <= i < |fs| :: fs[i].drmScheme == Some(p.formats.value[i])
    ensures forall f | f in LicenseFormats(lic) :: f.contentType == FirstFormat(lic) && f.rightsUri == IN_COPYRIGHT
  {
  }

  // ---------------------------------------------------------------------
  // A sequence of licenses, in feed order (each defined on the last license,
  // as the running totals are built)
  // ---------------------------------------------------------------------

  function Formats(lics: seq<License>): seq<FormatData> {
    if lics == [] then [] else Formats(lics[..|lics| - 1]) + LicenseFormats(lics[|lics| - 1])
  }

  function Records(lics: seq<License>, fetch: string -> StatusResponse): seq<LicenseData> {
    if lics == [] then [] else Records(lics[..|lics| - 1], fetch) + [Record(lics[|lics| - 1], fetch)]
  }

  function SumOwned(lics: seq<License>): int {
    if lics == [] then 0 else SumOwned(lics[..|lics| - 1]) + Owned(lics[|lics| - 1])
  }

  function SumAvailable(lics: seq<License>, fetch: string -> StatusResponse): int {
    if lics == [] then 0 else SumAvailable(lics[..|lics| - 1], fetch) + Available(lics[|lics| - 1], fetch)
  }

  /** The status URLs requested, in order. */
  function StatusFetches(lics: seq<License>): seq<string> {
    if lics == [] then []
    else
      var last := lics[|lics| - 1];
      StatusFetches(lics[..|lics| - 1]) + if FetchesStatus(last) then [StatusUrl(last).value] else []
  }

  /** Sum of the concurrency recorded in license records, a missing one counting 0. */
  function SumRecordedConcurrency(records: seq<LicenseData>): int {
    if records == [] then 0
    else SumRecordedConcurrency(records[..|records| - 1]) + records[|records| - 1].concurrentCheckouts.GetOr(0)
  }

  // ---------------------------------------------------------------------
  // The license loop
  // ---------------------------------------------------------------------

  /** One pass of the license loop: the license's format records, its license record and its
      shares of both totals, or the exception raised when its status link cannot be read.
      `fetched` is the status URL requested, if any. */
  method ExtractLicense(lic: License, fetch: string -> StatusResponse)
    returns (r: Result<Extraction, ImportError>, fetched: seq<string>)
    ensures r.Ok? <==> Fetchable(lic, fetch)
    ensures r.Ok? ==> r.value == Extraction(LicenseFormats(lic), [Record(lic, fetch)], Owned(lic), Available(lic, fetch))
    ensures r.Err? ==> r.error == StatusUnavailable(StatusUrl(lic).value)
    ensures fetched == if FetchesStatus(lic) then [StatusUrl(lic).value] else []
  {
    var formats: seq<FormatData> := [];
    var format := FirstFormat(lic);
    if lic.metadata.protection.Some? {
      var schemes := SchemesOrNone(lic.metadata.protection.value);
      for j := 0 to |schemes|
        invariant formats == LicenseFormats(lic)[..j]
      {
        assert LicenseFormats(lic)[..j + 1] == LicenseFormats(lic)[..j] + [LicenseFormats(lic)[j]];
        formats := formats + [FormatData(format, schemes[j], IN_COPYRIGHT)];
      }
    }
    assert formats == LicenseFormats(lic);

    var remaining: Option<int> := None;
    var availableCheckouts: Option<int> := None;
    var checkoutLink := CheckoutUrl(lic);
    var statusLink := StatusUrl(lic);
    fetched := [];
    if statusLink.Some? && statusLink.value != "" {
      fetched := [statusLink.value];
      var response := fetch(statusLink.value);
      if response.Raised? {
        r := Err(StatusUnavailable(statusLink.value));
        return;
      }
      var checkouts := CheckoutsOf(response.doc);
      remaining := checkouts.left;
      availableCheckouts := checkouts.available;
    }

    var expires: Option<string> := None;
    var concurrent: Option<int> := None;
    if lic.metadata.terms.Some? {
      expires := lic.metadata.terms.value.expires;
      concurrent := lic.metadata.terms.value.concurrency;
    }

    var record := LicenseData(lic.metadata.identifier, checkoutLink, statusLink, expires, remaining, concurrent);
    r := Ok(Extraction(formats, [record], concurrent.GetOr(0), availableCheckouts.GetOr(0)));
  }

  /** The license loop: the format records, license records and both totals of a publication's
      licenses, or the exception raised by the first status link that cannot be read, which ends
      the loop. `fetched` lists the status URLs requested, in order. */
  method ExtractLicenses(lics: seq<License>, fetch: string -> StatusResponse)
    returns (r: Result<Extraction, ImportError>, fetched: seq<string>)
    ensures r.Ok? <==> AllFetchable(lics, fetch)
    ensures r.Ok? ==>
              r.value == Extraction(Formats(lics), Records(lics, fetch), SumOwned(lics), SumAvailable(lics, fetch)) &&
              fetched == StatusFetches(lics)
    ensures r.Err? ==>
              var k := FirstUnfetchable(lics, fetch);
              k < |lics| &&
              r.error == StatusUnavailable(StatusUrl(lics[k]).value) &&
              fetched == StatusFetches(lics[..k + 1])
  {
    var formats: seq<FormatData> := [];
    var licenses: seq<LicenseData> := [];
    var licensesOwned := 0;
    var licensesAvailable := 0;
    fetched := [];
    var i := 0;
    while i < |lics|
      invariant 0 <= i <= |lics|
      invariant i <= FirstUnfetchable(lics, fetch)
      invariant formats == Formats(lics[..i])
      invariant licenses == Records(lics[..i], fetch)
      invariant licensesOwned == SumOwned(lics[..i])
      invariant licensesAvailable == SumAvailable(lics[..i], fetch)
      invariant fetched == StatusFetches(lics[..i])
    {
      PrefixStep(lics, i, fetch);
      UnfetchableStep(lics, i, fetch);
      var part, requested := ExtractLicense(lics[i], fetch);
      fetched := fetched + requested;
      if part.Err? {
        r := Err(part.error);
        return;
      }
      formats := formats + part.value.formats;
      licenses := licenses + part.value.licenses;
      licensesOwned := licensesOwned + part.value.licensesOwned;
      licensesAvailable := licensesAvailable + part.value.licensesAvailable;
      i := i + 1;
    }
    assert lics[..i] == lics;
    NoneFails(lics, fetch);
    r := Ok(Extraction(formats, licenses, licensesOwned, licensesAvailable));
  }

  // ---------------------------------------------------------------------
  // Writing into the publication's circulation data
  // ---------------------------------------------------------------------

  /** The circulation part of a publication's metadata, as the generic OPDS 2 importer left it. */
  class CirculationData {
    var formats: seq<FormatData>
    var licenses: seq<LicenseData>
    var licensesOwned: Option<int>
    var licensesAvailable: Option<int>

    constructor (formats: seq<FormatData>)
      ensures this.formats == formats && licenses == []
      ensures licensesOwned.None? && licensesAvailable.None?
    {
      this.formats := formats;
      licenses := [];
      licensesOwned := None;
      licensesAvailable := None;
    }
  }

  /** Extracts the licenses of `publication` into `circulation`: the license list and both
      totals are overwritten, the new format records are appended after the existing ones.
      When a status link cannot be read the exception leaves `circulation` untouched. */
  method ExtractPublicationMetadata(circulation: CirculationData, publication: Publication,
                                    fetch: string -> StatusResponse)
    returns (r: Result<(), ImportError>, fetched: seq<string>)
    modifies circulation
    ensures r.Ok? <==> AllFetchable(LicensesOf(publication), fetch)
    ensures r.Ok? ==>
              var lics := LicensesOf(publication);
              circulation.formats == old(circulation.formats) + Formats(lics) &&
              circulation.licenses == Records(lics, fetch) &&
              circulation.licensesOwned == Some(SumOwned(lics)) &&
              circulation.licensesAvailable == Some(SumAvailable(lics, fetch)) &&
              fetched == StatusFetches(lics)
    ensures LicensesOf(publication) == [] ==>
              r.Ok? && fetched == [] &&
              circulation.formats == old(circulation.formats) && circulation.licenses == [] &&
              circulation.licensesOwned == Some(0) && circulation.licensesAvailable == Some(0)
    ensures r.Err? ==> unchanged(circulation)
  {
    var extraction;
    extraction, fetched := ExtractLicenses(LicensesOf(publication), fetch);
    if extraction.Err? {
      r := Err(extraction.error);
      return;
    }
    circulation.licensesOwned := Some(extraction.value.licensesOwned);
    circulation.licensesAvailable := Some(extraction.value.licensesAvailable);
    circulation.licenses := extraction.value.licenses;
    circulation.formats := circulation.formats + extraction.value.formats;
    r := Ok(());
  }

  // ---------------------------------------------------------------------
  // Properties
  // ---------------------------------------------------------------------

  /** Exactly one license record per license, in feed order. */
  lemma {:induction false} RecordsOnePerLicense(lics: seq<License>, fetch: string -> StatusResponse)
    ensures |Records(lics, fetch)| == |lics|
    ensures forall i | 0 <= i < |lics| :: Records(lics, fetch)[i] == Record(lics[i], fetch)
  {
    if lics != [] {
      var init := lics[..|lics| - 1];
      RecordsOnePerLicense(init, fetch);
      forall i | 0 <= i < |lics| - 1
        ensures Records(lics, fetch)[i] == Record(lics[i], fetch)
      {
        assert init[i] == lics[i];
      }
    }
  }

  /** The identifiers of the license records are those of the licenses, in order. */
  lemma RecordIdentifiers(lics: seq<License>, fetch: string -> StatusResponse)
    ensures |Records(lics, fetch)| == |lics|
    ensures forall i | 0 <= i < |lics| :: Records(lics, fetch)[i].identifier == lics[i].metadata.identifier
  {
    RecordsOnePerLicense(lics, fetch);
  }

  /** Licenses owned is the sum of the concurrency recorded in the license records. */
  lemma {:induction false} OwnedMatchesRecords(lics: seq<License>, fetch: string -> StatusResponse)
    ensures SumOwned(lics) == SumRecordedConcurrency(Records(lics, fetch))
  {
    if lics != [] {
      var records := Records(lics, fetch);
      OwnedMatchesRecords(lics[..|lics| - 1], fetch);
      assert records[..|records| - 1] == Records(lics[..|lics| - 1], fetch);
    }
  }

  /** Extending the feed with one license extends each running total by that license's share. */
  /** Past a prefix with no failure, the next license is either the first failing one or
      extends that prefix. */
  lemma UnfetchableStep(lics: seq<License>, i: nat, fetch: string -> StatusResponse)
    requires i < |lics| && i <= FirstUnfetchable(lics, fetch)
    ensures Fetchable(lics[i], fetch) ==> i + 1 <= FirstUnfetchable(lics, fetch)
    ensures !Fetchable(lics[i], fetch) ==> FirstUnfetchable(lics, fetch) == i && !AllFetchable(lics, fetch)
  {
  }

  /** With no failing license every license is fetchable. */
  lemma NoneFails(lics: seq<License>, fetch: string -> StatusResponse)
    requires FirstUnfetchable(lics, fetch) == |lics|
    ensures AllFetchable(lics, fetch)
  {
  }

  lemma PrefixStep(lics: seq<License>, i: nat, fetch: string -> StatusResponse)
    requires i < |lics|
    ensures Formats(lics[..i + 1]) == Formats(lics[..i]) + LicenseFormats(lics[i])
    ensures Records(lics[..i + 1], fetch) == Records(lics[..i], fetch) + [Record(lics[i], fetch)]
    ensures SumOwned(lics[..i + 1]) == SumOwned(lics[..i]) + Owned(lics[i])
    ensures SumAvailable(lics[..i + 1], fetch) == SumAvailable(lics[..i], fetch) + Available(lics[i], fetch)
    ensures StatusFetches(lics[..i + 1]) ==
              StatusFetches(lics[..i]) + if FetchesStatus(lics[i]) then [StatusUrl(lics[i]).value] else []
  {
    assert lics[..i + 1][..i] == lics[..i];
    assert lics[..i + 1][i] == lics[i];
  }

  /** New format records of two license lists appear in feed order. */
  lemma {:induction false} FormatsSplit(a: seq<License>, b: seq<License>)
    ensures Formats(a + b) == Formats(a) + Formats(b)
  {
    if b == [] {
      assert a + b == a;
    } else {
      var init, last := b[..|b| - 1], b[|b| - 1];
      assert b == init + [last];
      assert a + b == (a + init) + [last];
      FormatsAppendOne(a + init, last);
      FormatsAppendOne(init, last);
      FormatsSplit(a, init);
      ConcatAssoc(Formats(a), Formats(init), LicenseFormats(last));
    }
  }

  /** Appending one license appends its format records. */
  lemma FormatsAppendOne(s: seq<License>, lic: License)
    ensures Formats(s + [lic]) == Formats(s) + LicenseFormats(lic)
  {
    assert (s + [lic])[..|s|] == s;
  }

  /** License records of two license lists appear in feed order. */
  lemma {:induction false} RecordsSplit(a: seq<License>, b: seq<License>, fetch: string -> StatusResponse)
    ensures Records(a + b, fetch) == Records(a, fetch) + Records(b, fetch)
  {
    if b == [] {
      assert a + b == a;
    } else {
      var init := b[..|b| - 1];
      assert (a + b)[..|a + b| - 1] == a + init;
      assert (a + b)[|a + b| - 1] == b[|b| - 1];
      RecordsSplit(a, init, fetch);
    }
  }

  /** Both totals are additive over the licenses of a feed. */
  lemma {:induction false} TotalsSplit(a: seq<License>, b: seq<License>, fetch: string -> StatusResponse)
    ensures SumOwned(a + b) == SumOwned(a) + SumOwned(b)
    ensures SumAvailable(a + b, fetch) == SumAvailable(a, fetch) + SumAvailable(b, fetch)
  {
    if b == [] {
      assert a + b == a;
    } else {
      var init := b[..|b| - 1];
      assert (a + b)[..|a + b| - 1] == a + init;
      assert (a + b)[|a + b| - 1] == b[|b| - 1];
      TotalsSplit(a, init, fetch);
    }
  }

  /** Format records come only from protected licenses; there are none exactly when no license is protected. */
  lemma {:induction false} FormatsIffProtected(lics: seq<License>)
    ensures Formats(lics) == [] <==> forall i | 0 <= i < |lics| :: lics[i].metadata.protection.None?
  {
    if lics != [] {
      var init := lics[..|lics| - 1];
      FormatsIffProtected(init);
      if forall i | 0 <= i < |lics| :: lics[i].metadata.protection.None? {
        assert forall i | 0 <= i < |init| :: init[i] == lics[i];
      } else if lics[|lics| - 1].metadata.protection.None? {
        assert exists i | 0 <= i < |init| :: init[i].metadata.protection.Some?;
      } else {
        LicenseFormatsShape(lics[|lics| - 1]);
        assert |LicenseFormats(lics[|lics| - 1])| > 0;
      }
    }
  }

  /** Every format record carries the first format of some protected license and the in-copyright rights status. */
  lemma {:induction false} FormatsProvenance(lics: seq<License>)
    ensures forall f | f in Formats(lics) ::
              f.rightsUri == IN_COPYRIGHT &&
              exists i | 0 <= i < |lics| :: lics[i].metadata.protection.Some? && f.contentType == FirstFormat(lics[i])
  {
    if lics != [] {
      var init := lics[..|lics| - 1];
      var last := lics[|lics| - 1];
      FormatsProvenance(init);
      forall f | f in Formats(lics)
        ensures f.rightsUri == IN_COPYRIGHT
        ensures exists i | 0 <= i < |lics| :: lics[i].metadata.protection.Some? && f.contentType == FirstFormat(lics[i])
      {
        if f in Formats(init) {
          var i :| 0 <= i < |init| && init[i].metadata.protection.Some? && f.contentType == FirstFormat(init[i]);
          assert init[i] == lics[i];
        } else {
          assert f in LicenseFormats(last);
          LicenseFormatsShape(last);
          assert last.metadata.protection.Some?;
        }
      }
    }
  }

  /** The status document is requested at most once per license, and only from a license's non-empty self link. */
  lemma {:induction false} StatusFetchedAtMostOncePerLicense(lics: seq<License>)
    ensures |StatusFetches(lics)| <= |lics|
    ensures forall u | u in StatusFetches(lics) ::
              u != "" && exists i | 0 <= i < |lics| :: StatusUrl(lics[i]) == Some(u)
  {
    if lics != [] {
      var init := lics[..|lics| - 1];
      StatusFetchedAtMostOncePerLicense(init);
      forall u | u in StatusFetches(lics)
        ensures u != "" && exists i | 0 <= i < |lics| :: StatusUrl(lics[i]) == Some(u)
      {
        if u in StatusFetches(init) {
          var i :| 0 <= i < |init| && StatusUrl(init[i]) == Some(u);
          assert init[i] == lics[i];
        } else {
          assert StatusUrl(lics[|lics| - 1]) == Some(u);
        }
      }
    }
  }

  /** A publication with two licenses, concurrency 3 with 2 available and concurrency 1 with 1 available,
      owns 4 licenses of which 3 are available. */
  lemma TwoLicenseTotals(u1: string, u2: string, fetch: string -> StatusResponse)
    requires u1 != "" && u2 != ""
    requires fetch(u1) == Document(StatusDocument(Some(Checkouts(Some(2), Some(2)))))
    requires fetch(u2) == Document(StatusDocument(Some(Checkouts(Some(1), Some(1)))))
    ensures var lics := [
              License(LicenseMetadata("a", [], None, Some(Terms(None, Some(3)))), [Link({SELF_REL}, u1)]),
              License(LicenseMetadata("b", [], None, Some(Terms(None, Some(1)))), [Link({SELF_REL}, u2)])];
            SumOwned(lics) == 4 && SumAvailable(lics, fetch) == 3
  {
    var a := License(LicenseMetadata("a", [], None, Some(Terms(None, Some(3)))), [Link({SELF_REL}, u1)]);
    var b := License(LicenseMetadata("b", [], None, Some(Terms(None, Some(1)))), [Link({SELF_REL}, u2)]);
    assert [a, b] == [a] + [b];
    TotalsSplit([a], [b], fetch);
    assert [a][..0] == [] && [b][..0] == [];
    assert StatusUrl(a) == Some(u1) && Available(a, fetch) == 2;
    assert StatusUrl(b) == Some(u2) && Available(b, fetch) == 1;
  }
}
