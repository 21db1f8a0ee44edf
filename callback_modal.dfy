/**
 * The callback-request hook: which reason a callback request carries, derived
 * from the current location unless the caller fixes one, and the per-sale record
 * of accepted requests.
 */
module CallbackModal {
  import opened Optional

  /** The callback reasons this hook produces. */
  datatype Reason =
    | OfferQuestion
    | CheckRepairQuestion
    | DocsQuestion
    | BookingPhotographer
    | ContractSigning
    | Questions
    | CommonQuestion

  /** The application's route paths that the reason table mentions. Their text lives
      in the routes constants, which this model takes as given. */
  datatype Routes = Routes(
    offers: string,
    checkingRepairLevel: string,
    uploadingDocuments: string,
    professionalPhotography: string,
    signingContract: string)

  predicate Distinct(r: Routes)
  {
    var p := [r.offers, r.checkingRepairLevel, r.uploadingDocuments, r.professionalPhotography, r.signingContract];
    forall i, j :: 0 <= i < j < |p| ==> p[i] != p[j]
  }

  function TableRoutes(r: Routes): set<string>
  {
    {r.offers, r.checkingRepairLevel, r.uploadingDocuments, r.professionalPhotography, r.signingContract}
  }

  datatype Sale = Sale(id: int)

  // ---------------------------------------------------------------------
  // The location
  // ---------------------------------------------------------------------

  /** `asPath.split("?")[0]`: the path up to, not including, its first '?'. */
  function StripQuery(asPath: string): (r: string)
    ensures r <= asPath
    ensures '?' !in r
    ensures |r| < |asPath| ==> asPath[|r|] == '?'
  {
    if asPath == [] then []
    else if asPath[0] == '?' then []
    else [asPath[0]] + StripQuery(asPath[1..])
  }

  /** Any prefix free of '?' that stops at a '?' or at the end is the stripped path. */
  lemma {:induction false} StripQueryUnique(asPath: string, r: string)
    requires r <= asPath && '?' !in r
    requires |r| < |asPath| ==> asPath[|r|] == '?'
    ensures r == StripQuery(asPath)
  {
    if asPath != [] && asPath[0] != '?' {
      assert r != [] && r[0] == asPath[0];
      StripQueryUnique(asPath[1..], r[1..]);
      assert r == [r[0]] + r[1..];
    }
  }

  /** The query string never reaches the location. */
  lemma StripQueryOfQuery(path: string, query: string)
    requires '?' !in path
    ensures StripQuery(path + "?" + query) == path
    ensures StripQuery(path) == path
  {
    StripQueryUnique(path + "?" + query, path);
    StripQueryUnique(path, path);
  }

  lemma StripQueryIdempotent(asPath: string)
    ensures StripQuery(StripQuery(asPath)) == StripQuery(asPath)
  {
  }

  // ---------------------------------------------------------------------
  // The reason
  // ---------------------------------------------------------------------

  /** `REASON_BY_LOCATION`: an object literal, so a repeated key keeps its last entry. */
  function ReasonTable(r: Routes): (t: map<string, Reason>)
    ensures t.Keys == TableRoutes(r)
    ensures forall k :: k in t ==> t[k] != Questions && t[k] != CommonQuestion
  {
    map[r.offers := OfferQuestion]
      [r.checkingRepairLevel := CheckRepairQuestion]
      [r.uploadingDocuments := DocsQuestion]
      [r.professionalPhotography := BookingPhotographer]
      [r.signingContract := ContractSigning]
  }

  /** `getCallbackReasonByLocation`; `offerQuestionsView` is what
      `getIsOfferQuestionsView(sale)` answers for the active sale. */
  function ReasonByLocation(path: string, routes: Routes, offerQuestionsView: bool): (r: Reason)
    ensures r == Questions ==> path == routes.offers && offerQuestionsView
    ensures r != CommonQuestion ==> path in TableRoutes(routes)
  {
    if path == routes.offers && offerQuestionsView then Questions
    else if path in ReasonTable(routes) then ReasonTable(routes)[path]
    else CommonQuestion
  }

  /** The reason the hook uses: a given default reason, else the one for the location. */
  function CallbackReason(defaultReason: Option<Reason>, asPath: string, routes: Routes, offerQuestionsView: bool): (r: Reason)
    ensures defaultReason.Some? ==> r == defaultReason.value
    ensures defaultReason.None? && '?' !in asPath ==> r == ReasonByLocation(asPath, routes, offerQuestionsView)
  {
    match defaultReason
    case Some(reason) => reason
    case None =>
      var location := StripQuery(asPath);
      assert '?' !in asPath ==> location == asPath by {
        if '?' !in asPath {
          StripQueryUnique(asPath, asPath);
        }
      }
      ReasonByLocation(location, routes, offerQuestionsView)
  }

  /** Each table route gets its listed reason; the offers route yields to "questions"
      when the offer-questions view is active. */
  lemma ReasonForTableRoutes(routes: Routes, offerQuestionsView: bool)
    requires Distinct(routes)
    ensures ReasonByLocation(routes.offers, routes, offerQuestionsView) ==
      if offerQuestionsView then Questions else OfferQuestion
    ensures ReasonByLocation(routes.checkingRepairLevel, routes, offerQuestionsView) == CheckRepairQuestion
    ensures ReasonByLocation(routes.uploadingDocuments, routes, offerQuestionsView) == DocsQuestion
    ensures ReasonByLocation(routes.professionalPhotography, routes, offerQuestionsView) == BookingPhotographer
    ensures ReasonByLocation(routes.signingContract, routes, offerQuestionsView) == ContractSigning
  {
    var p := [routes.offers, routes.checkingRepairLevel, routes.uploadingDocuments,
              routes.professionalPhotography, routes.signingContract];
    assert p[0] != p[1] && p[0] != p[2] && p[0] != p[3] && p[0] != p[4];
    assert p[1] != p[2] && p[1] != p[3] && p[1] != p[4];
    assert p[2] != p[3] && p[2] != p[4] && p[3] != p[4];
  }

  /** "commonQuestion" is the answer exactly for the paths outside the table. */
  lemma CommonQuestionIffUnlisted(path: string, routes: Routes, offerQuestionsView: bool)
    ensures ReasonByLocation(path, routes, offerQuestionsView) == CommonQuestion <==> path !in TableRoutes(routes)
  {
  }

  /** "questions" comes only from the offers route with the offer-questions view. */
  lemma QuestionsIffOfferQuestionsView(path: string, routes: Routes, offerQuestionsView: bool)
    ensures ReasonByLocation(path, routes, offerQuestionsView) == Questions <==>
      path == routes.offers && offerQuestionsView
  {
  }

  /** A default reason always wins; without one the query string does not matter. */
  lemma CallbackReasonPrecedence(defaultReason: Option<Reason>, path: string, query: string,
                                 routes: Routes, offerQuestionsView: bool)
    requires '?' !in path
    ensures defaultReason.Some? ==> CallbackReason(defaultReason, path + "?" + query, routes, offerQuestionsView) == defaultReason.value
    ensures defaultReason.None? ==>
      CallbackReason(defaultReason, path + "?" + query, routes, offerQuestionsView) ==
      ReasonByLocation(path, routes, offerQuestionsView)
  {
    StripQueryOfQuery(path, query);
  }

  // ---------------------------------------------------------------------
  // Accepted requests
  // ---------------------------------------------------------------------

  /** `prev => ({ ...prev, [id]: true })`. */
  function MarkAccepted(prev: map<int, bool>, id: int): (r: map<int, bool>)
    ensures r.Keys == prev.Keys + {id}
    ensures r[id]
    ensures forall k :: k in prev && k != id ==> r[k] == prev[k]
  {
    prev[id := true]
  }

  /** `Boolean(sale?.id && accepted[sale.id] && !isLoading)`. */
  predicate IsAccepted(sale: Option<Sale>, accepted: map<int, bool>, isLoading: bool)
  {
    sale.Some? && sale.value.id != 0 && sale.value.id in accepted && accepted[sale.value.id] && !isLoading
  }

  /** After a successful request the sale reads as accepted once loading is over;
      while a request loads nothing reads as accepted. */
  lemma AcceptedAfterSuccess(accepted: map<int, bool>, sale: Sale, isLoading: bool)
    requires sale.id != 0
    ensures IsAccepted(Some(sale), MarkAccepted(accepted, sale.id), isLoading) <==> !isLoading
  {
  }

  /** A success for one sale does not change whether another reads as accepted. */
  lemma OtherSalesUnaffected(accepted: map<int, bool>, id: int, other: Sale, isLoading: bool)
    requires other.id != id
    ensures IsAccepted(Some(other), MarkAccepted(accepted, id), isLoading) == IsAccepted(Some(other), accepted, isLoading)
  {
  }

  /** A sale without an id, or no sale at all, never reads as accepted. */
  lemma NoSaleNeverAccepted(accepted: map<int, bool>, isLoading: bool)
    ensures !IsAccepted(None, accepted, isLoading)
    ensures !IsAccepted(Some(Sale(0)), MarkAccepted(accepted, 0), isLoading)
  {
  }

  /** The hook's state: which sales had a callback request accepted. */
  class CallbackRequests {
    var accepted: map<int, bool>

    constructor ()
      ensures accepted == map[]
    {
      accepted := map[];
    }

    /** The mutation's success handler for the active sale's id. */
    method OnSuccess(saleId: int)
      modifies this
      ensures accepted == MarkAccepted(old(accepted), saleId)
      ensures saleId != 0 ==> IsAcceptedFor(Some(Sale(saleId)), false)
    {
      accepted := accepted[saleId := true];
    }

    /** `isAccepted` as the hook computes it from its current map. */
    predicate IsAcceptedFor(sale: Option<Sale>, isLoading: bool)
      reads this
    {
      IsAccepted(sale, accepted, isLoading)
    }
  }
}
