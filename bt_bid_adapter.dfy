/**
 * The Blockthrough bid adapter: the validator, the three hooks it gives the OpenRTB
 * converter (imp, request, bidResponse), the two wrappers around the converter
 * (buildRequests, interpretResponse) and the user-sync builder.
 *
 * The converter itself is not modelled: the objects it builds are inputs of the hooks, and
 * its toORTB / fromORTB entry points are function parameters of the wrappers.
 */
module BTBidAdapter {
  import opened JsValues
  import opened UrlSearchParams

  const ENDPOINT_URL := "https://pbs.btloader.com/openrtb2/auction"
  const SYNC_URL := "https://cdn.btloader.com/user_sync.html"

  datatype Option<T> = None | Some(value: T)

  // ---------------------------------------------------------------------------------------
  // Reading a bid request

  /** `bid.params` */
  function ParamsOf(bid: JsObject): JsVal
    reads bid
  {
    Get(bid, "params")
  }

  /** `bid.params.blockthrough` (undefined when `params` is not an object) */
  function BlockthroughOf(bid: JsObject): JsVal
    reads bid, Deref(ParamsOf(bid))
  {
    Prop(ParamsOf(bid), "blockthrough")
  }

  /** `bid.params.blockthrough.auctionID` */
  function AuctionIdOf(bid: JsObject): JsVal
    reads bid, Deref(ParamsOf(bid)), Deref(BlockthroughOf(bid))
  {
    Prop(BlockthroughOf(bid), "auctionID")
  }

  /** `bid.ortb2Imp` */
  function Ortb2ImpOf(bid: JsObject): JsVal
    reads bid
  {
    Get(bid, "ortb2Imp")
  }

  /** `ortb2Imp?.ext.gpid` throws: `ortb2Imp` is there but its `ext` is null or undefined. */
  predicate GpidThrows(bid: JsObject)
    reads bid, Deref(Ortb2ImpOf(bid))
  {
    !IsNullish(Ortb2ImpOf(bid)) && IsNullish(Prop(Ortb2ImpOf(bid), "ext"))
  }

  /** The value of `ortb2Imp?.ext.gpid` (undefined where it throws). */
  function GpidOf(bid: JsObject): JsVal
    reads bid, Deref(Ortb2ImpOf(bid)), Deref(Prop(Ortb2ImpOf(bid), "ext"))
  {
    if IsNullish(Ortb2ImpOf(bid)) then Undefined else Prop(Prop(Ortb2ImpOf(bid), "ext"), "gpid")
  }

  // ---------------------------------------------------------------------------------------
  // isBidRequestValid

  /** The four warnings the validator can log; it logs at most one per call. */
  datatype Warning = BlockthroughMissing | OrgIdMissing | WebsiteIdMissing | AbMissing
  {
    function Message(): string
    {
      match this
      case BlockthroughMissing =>
        "BT Bid Adapter: a object type \"blockthrough\" with site ids and adblock data must be provided."
      case OrgIdMissing => "BT Bid Adapter: a string type \"orgID\" must be provided."
      case WebsiteIdMissing => "BT Bid Adapter: a string type \"websiteID\" must be provided."
      case AbMissing => "BT Bid Adapter: a boolean type \"ab\" must be provided."
    }
  }

  /**
   * What one call of isBidRequestValid does: return true, log one warning and return false,
   * or throw a TypeError (destructuring `bid.params` when it is null or undefined).
   */
  datatype Validation = Accepted | Rejected(warning: Warning) | ParamsTypeError
  {
    /** The warnings logged during the call, in order. */
    function Logged(): seq<Warning>
    {
      if Rejected? then [warning] else []
    }
  }

  /** A plain object with at least one own key. */
  predicate NonEmptyObject(v: JsVal)
    reads Deref(v)
  {
    v.Ref? && |v.obj.props| > 0
  }

  predicate NonEmptyString(v: JsVal)
  {
    v.Str? && v.s != ""
  }

  /** Everything the validator asks of `params.blockthrough`. */
  predicate ValidBlockthrough(bt: JsVal)
    reads Deref(bt)
  {
    && NonEmptyObject(bt)
    && NonEmptyString(Prop(bt, "orgID"))
    && NonEmptyString(Prop(bt, "websiteID"))
    && Prop(bt, "ab").Bool?
  }

  /**
   * isBidRequestValid: the guards run in the order blockthrough object, orgID, websiteID,
   * ab; the first that fails decides the one warning logged.
   */
  function IsBidRequestValid(bid: JsObject): (r: Validation)
    reads bid, Deref(ParamsOf(bid)), Deref(BlockthroughOf(bid))
    ensures r.ParamsTypeError? <==> IsNullish(ParamsOf(bid))
    ensures r.Accepted? <==> !IsNullish(ParamsOf(bid)) && ValidBlockthrough(BlockthroughOf(bid))
    ensures r == Rejected(BlockthroughMissing) <==>
              !IsNullish(ParamsOf(bid)) && !NonEmptyObject(BlockthroughOf(bid))
    ensures r == Rejected(OrgIdMissing) <==>
              && !IsNullish(ParamsOf(bid))
              && NonEmptyObject(BlockthroughOf(bid))
              && !NonEmptyString(Prop(BlockthroughOf(bid), "orgID"))
    ensures r == Rejected(WebsiteIdMissing) <==>
              && !IsNullish(ParamsOf(bid))
              && NonEmptyObject(BlockthroughOf(bid))
              && NonEmptyString(Prop(BlockthroughOf(bid), "orgID"))
              && !NonEmptyString(Prop(BlockthroughOf(bid), "websiteID"))
    ensures r == Rejected(AbMissing) <==>
              && !IsNullish(ParamsOf(bid))
              && NonEmptyObject(BlockthroughOf(bid))
              && NonEmptyString(Prop(BlockthroughOf(bid), "orgID"))
              && NonEmptyString(Prop(BlockthroughOf(bid), "websiteID"))
              && !Prop(BlockthroughOf(bid), "ab").Bool?
    ensures |r.Logged()| == if r.Rejected? then 1 else 0
  {
    var params := ParamsOf(bid);
    if IsNullish(params) then ParamsTypeError
    else
      var bt := Prop(params, "blockthrough");
      if !bt.Ref? || |bt.obj.props| == 0 then Rejected(BlockthroughMissing)
      else
        var orgId := Prop(bt, "orgID");
        var websiteId := Prop(bt, "websiteID");
        if !Truthy(orgId) || !orgId.Str? then Rejected(OrgIdMissing)
        else if !Truthy(websiteId) || !websiteId.Str? then Rejected(WebsiteIdMissing)
        else if !Prop(bt, "ab").Bool? then Rejected(AbMissing)
        else Accepted
  }

  // ---------------------------------------------------------------------------------------
  // The imp hook

  /**
   * What imp needs of its inputs. When `params` is there, `params.blockthrough` is an object
   * (the validator has made sure of it) and, when a truthy `auctionID` is to be moved,
   * `params.prebid` is absent or a primitive; the converter's new `imp` is not the bid's
   * `blockthrough` or `ortb2Imp` object.
   */
  predicate ImpReady(imp: JsObject, bid: JsObject)
    reads bid, Deref(ParamsOf(bid)), Deref(BlockthroughOf(bid))
  {
    && (Truthy(ParamsOf(bid)) ==>
          && ParamsOf(bid).Ref?
          && BlockthroughOf(bid).Ref?
          && (Truthy(AuctionIdOf(bid)) ==> Replaceable(Prop(ParamsOf(bid), "prebid")))
          && BlockthroughOf(bid).obj != imp)
    && imp !in Deref(Ortb2ImpOf(bid))
  }

  /** The object `v` refers to holds the one property `k: x` and nothing else. */
  predicate HoldsOnly(v: JsVal, k: string, x: JsVal)
    reads Deref(v)
  {
    v.Ref? && v.obj.props == map[k := x]
  }

  /** `m` after `deepSetValue(imp, 'gpid', g)` when `g` is truthy. */
  function WithGpid(m: map<string, JsVal>, g: JsVal): map<string, JsVal>
  {
    if Truthy(g) then m["gpid" := g] else m
  }

  /**
   * The imp hook, run on the `imp` object the converter built for `bidRequest`. It returns
   * whether the hook threw; the source returns `imp` itself.
   */
  method Imp(imp: JsObject, bidRequest: JsObject) returns (threw: bool)
    requires ImpReady(imp, bidRequest)
    modifies imp, Deref(BlockthroughOf(bidRequest))
    ensures threw == old(GpidThrows(bidRequest))
    // imp.ext is replaced by a new object: params without blockthrough, ...
    ensures Truthy(old(ParamsOf(bidRequest))) ==>
              && Get(imp, "ext").Ref?
              && fresh(Get(imp, "ext").obj)
              && Get(imp, "ext").obj.props - {"prebid"}
                 == old(ParamsOf(bidRequest).obj.props) - {"blockthrough", "prebid"}
    ensures Truthy(old(ParamsOf(bidRequest))) && !Truthy(old(AuctionIdOf(bidRequest))) ==>
              Get(imp, "ext").obj.props == old(ParamsOf(bidRequest).obj.props) - {"blockthrough"}
    // ... with a truthy auctionID moved to ext.prebid.blockthrough.auctionID, on new objects
    ensures Truthy(old(ParamsOf(bidRequest))) && Truthy(old(AuctionIdOf(bidRequest))) ==>
              && var prebid := Get(Get(imp, "ext").obj, "prebid");
              && HoldsOnly(prebid, "blockthrough", Prop(prebid, "blockthrough"))
              && HoldsOnly(Prop(prebid, "blockthrough"), "auctionID", old(AuctionIdOf(bidRequest)))
              && fresh(Deref(prebid)) && fresh(Deref(Prop(prebid, "blockthrough")))
    // ... and deleted from the bid's own blockthrough object, which keeps everything else
    ensures Truthy(old(ParamsOf(bidRequest))) ==>
              old(BlockthroughOf(bidRequest)).obj.props ==
                if Truthy(old(AuctionIdOf(bidRequest)))
                then old(BlockthroughOf(bidRequest).obj.props) - {"auctionID"}
                else old(BlockthroughOf(bidRequest).obj.props)
    // nothing else in imp changes but gpid, set iff ortb2Imp.ext.gpid is truthy
    ensures imp.props ==
              WithGpid(if Truthy(old(ParamsOf(bidRequest))) then old(imp.props)["ext" := Get(imp, "ext")]
                       else old(imp.props),
                       old(GpidOf(bidRequest)))
  {
    var params := ParamsOf(bidRequest);
    var ortb2Imp := Ortb2ImpOf(bidRequest);
    ghost var o2Ext := Prop(ortb2Imp, "ext");
    ghost var gpid := GpidOf(bidRequest);
    if Truthy(params) {
      MoveBlockthroughParams(imp, params.obj, Prop(params, "blockthrough").obj);
    }
    assert Prop(ortb2Imp, "ext") == o2Ext;
    assert !IsNullish(ortb2Imp) ==> Prop(o2Ext, "gpid") == gpid;
    threw := CopyGpid(imp, ortb2Imp);
  }

  /**
   * Lines 41-51 of imp: `imp.ext` becomes a copy of `params` without `blockthrough`, and a
   * truthy `blockthrough.auctionID` moves to `imp.ext.prebid.blockthrough.auctionID`.
   */
  method MoveBlockthroughParams(imp: JsObject, params: JsObject, bt: JsObject)
    requires Get(params, "blockthrough") == Ref(bt)
    requires Truthy(Get(bt, "auctionID")) ==> Replaceable(Get(params, "prebid"))
    requires bt != imp
    modifies imp, bt
    ensures imp.props == old(imp.props)["ext" := Get(imp, "ext")]
    ensures Get(imp, "ext").Ref? && fresh(Get(imp, "ext").obj)
    ensures Get(imp, "ext").obj.props - {"prebid"} == old(params.props) - {"blockthrough", "prebid"}
    ensures !Truthy(old(Get(bt, "auctionID"))) ==>
              Get(imp, "ext").obj.props == old(params.props) - {"blockthrough"}
    ensures Truthy(old(Get(bt, "auctionID"))) ==>
              && var prebid := Get(Get(imp, "ext").obj, "prebid");
              && HoldsOnly(prebid, "blockthrough", Prop(prebid, "blockthrough"))
              && HoldsOnly(Prop(prebid, "blockthrough"), "auctionID", old(Get(bt, "auctionID")))
              && fresh(Deref(prebid)) && fresh(Deref(Prop(prebid, "blockthrough")))
    ensures bt.props ==
              if Truthy(old(Get(bt, "auctionID"))) then old(bt.props) - {"auctionID"} else old(bt.props)
  {
    var ext := new JsObject(params.props - {"blockthrough"});
    imp.Set("ext", Ref(ext));
    var auctionId := Get(bt, "auctionID");
    if Truthy(auctionId) {
      var prebid := Descend(ext, "prebid");
      var holder := Descend(prebid, "blockthrough");
      holder.Set("auctionID", auctionId);
      bt.Delete("auctionID");
      assert Get(ext, "prebid") == Ref(prebid);
    }
  }

  /** Lines 53-55 of imp: `imp.gpid` takes a truthy `ortb2Imp?.ext.gpid`. */
  method CopyGpid(imp: JsObject, ortb2Imp: JsVal) returns (threw: bool)
    requires imp !in Deref(ortb2Imp)
    modifies imp
    ensures threw == (!IsNullish(ortb2Imp) && IsNullish(old(Prop(ortb2Imp, "ext"))))
    ensures imp.props ==
              WithGpid(old(imp.props),
                       if IsNullish(ortb2Imp) then Undefined else old(Prop(Prop(ortb2Imp, "ext"), "gpid")))
  {
    threw := false;
    if !IsNullish(ortb2Imp) {
      var ext := Prop(ortb2Imp, "ext");
      if IsNullish(ext) {
        threw := true;
        return;
      }
      var gpid := Prop(ext, "gpid");
      if Truthy(gpid) {
        imp.Set("gpid", gpid);
      }
    }
  }

  // ---------------------------------------------------------------------------------------
  // The request hook

  /** `bids?.[0]` */
  function FirstOf(bids: JsVal): JsVal
    reads Deref(bids)
  {
    match bids
    case Arr(s) => if |s| > 0 then s[0] else Undefined
    case Ref(o) => Get(o, "0")
    case Str(s) => if |s| > 0 then Str([s[0]]) else Undefined
    case _ => Undefined
  }

  /** `(bidderRequest.bids?.[0] || {}).params` */
  function FirstBidParams(bidderRequest: JsObject): JsVal
    reads bidderRequest, Deref(Get(bidderRequest, "bids")), Deref(FirstOf(Get(bidderRequest, "bids")))
  {
    var first := FirstOf(Get(bidderRequest, "bids"));
    if Truthy(first) then Prop(first, "params") else Undefined
  }

  /** The value the request hook stores at `site.ext.blockthrough`, if it stores one. */
  function Promoted(bidderRequest: JsObject): Option<JsVal>
    reads bidderRequest, Deref(Get(bidderRequest, "bids")), Deref(FirstOf(Get(bidderRequest, "bids")))
    reads Deref(FirstBidParams(bidderRequest))
  {
    var params := FirstBidParams(bidderRequest);
    if Truthy(params) then Some(Prop(params, "blockthrough")) else None
  }

  /** `request.site` */
  function SiteOf(request: JsObject): JsVal
    reads request
  {
    Get(request, "site")
  }

  /** `request.site.ext` */
  function SiteExtOf(request: JsObject): JsVal
    reads request, Deref(SiteOf(request))
  {
    Prop(SiteOf(request), "ext")
  }

  /**
   * deepSetValue can walk `site.ext` of the converter's request: each is absent, a primitive
   * or an object, and the objects on the path are three different ones.
   */
  predicate SitePathReady(request: JsObject)
    reads request, Deref(SiteOf(request))
  {
    || Replaceable(SiteOf(request))
    || (&& SiteOf(request).Ref?
        && SiteOf(request).obj != request
        && (|| Replaceable(SiteExtOf(request))
            || (SiteExtOf(request).Ref? && SiteExtOf(request).obj !in {request, SiteOf(request).obj})))
  }

  /** `m` after `request.test = 1` when debugging is on. */
  function WithTest(m: map<string, JsVal>, debug: bool): map<string, JsVal>
  {
    if debug then m["test" := Num(1.0)] else m
  }

  /**
   * The request hook, run on the `request` object the converter built; `debug` is the value
   * of the `debug` configuration, taken as a truth value.
   */
  method Request(request: JsObject, bidderRequest: JsObject, debug: bool)
    requires Promoted(bidderRequest).Some? ==> SitePathReady(request)
    modifies request, Deref(SiteOf(request)), Deref(SiteExtOf(request))
    // site.ext.blockthrough is the first bid's params.blockthrough, as it stands (same reference)
    ensures old(Promoted(bidderRequest)).Some? ==>
              Prop(SiteExtOf(request), "blockthrough") == old(Promoted(bidderRequest)).value
    ensures old(Promoted(bidderRequest)).None? ==> request.props == WithTest(old(request.props), debug)
    ensures old(Promoted(bidderRequest)).None? ==>
              unchanged(old(Deref(SiteOf(request)) + Deref(SiteExtOf(request))) - {request})
    // test is 1 exactly under debug
    ensures Get(request, "test") == if debug then Num(1.0) else old(Get(request, "test"))
    // nothing else changes: existing objects on the path are kept, missing ones are new
    ensures old(Promoted(bidderRequest)).Some? ==>
              && request.props == WithTest(old(request.props)["site" := SiteOf(request)], debug)
              && (old(SiteOf(request)).Ref? ==> SiteOf(request) == old(SiteOf(request)))
              && (!old(SiteOf(request)).Ref? ==> fresh(Deref(SiteOf(request))))
              && SiteOf(request).Ref?
              && SiteOf(request).obj.props
                 == (if old(SiteOf(request)).Ref? then old(SiteOf(request).obj.props) else map[])
                    ["ext" := SiteExtOf(request)]
              && (old(SiteOf(request)).Ref? && old(SiteExtOf(request)).Ref? ==>
                    SiteExtOf(request) == old(SiteExtOf(request)))
              && (!(old(SiteOf(request)).Ref? && old(SiteExtOf(request)).Ref?) ==>
                    fresh(Deref(SiteExtOf(request))))
              && SiteExtOf(request).Ref?
              && SiteExtOf(request).obj.props
                 == (if old(SiteOf(request)).Ref? && old(SiteExtOf(request)).Ref?
                     then old(SiteExtOf(request).obj.props) else map[])
                    ["blockthrough" := old(Promoted(bidderRequest)).value]
  {
    var promoted := Promoted(bidderRequest);
    if promoted.Some? {
      var site := Descend(request, "site");
      var ext := Descend(site, "ext");
      ext.Set("blockthrough", promoted.value);
    }
    if debug {
      request.Set("test", Num(1.0));
    }
  }

  // ---------------------------------------------------------------------------------------
  // imp before request: the promoted blockthrough object has lost its auctionID

  /** The objects the imp hook may change. */
  function ImpFootprint(imp: JsObject, bid: JsObject): set<JsObject>
    reads bid, Deref(ParamsOf(bid))
  {
    {imp} + Deref(BlockthroughOf(bid))
  }

  /** The objects the request hook reads to find the value it promotes. */
  function PromotedReads(bidderRequest: JsObject): set<JsObject>
    reads bidderRequest, Deref(Get(bidderRequest, "bids")), Deref(FirstOf(Get(bidderRequest, "bids")))
  {
    {bidderRequest} + Deref(Get(bidderRequest, "bids")) + Deref(FirstOf(Get(bidderRequest, "bids")))
    + Deref(FirstBidParams(bidderRequest))
  }

  /** The objects the request hook may change. */
  function RequestPath(request: JsObject): set<JsObject>
    reads request, Deref(SiteOf(request))
  {
    {request} + Deref(SiteOf(request)) + Deref(SiteExtOf(request))
  }

  /**
   * The converter builds the imp of the first bid, then the request. Since `site.ext.blockthrough`
   * is the first bid's own `params.blockthrough` object, the deletion the imp hook makes is seen
   * through it: the auctionID sits in `imp.ext.prebid.blockthrough` and no longer in the
   * blockthrough object the request carries. `threw` says the imp hook threw, and then the
   * request is not built.
   */
  method ImpThenRequest(imp: JsObject, bid: JsObject, request: JsObject, bidderRequest: JsObject, debug: bool)
    returns (threw: bool)
    requires FirstOf(Get(bidderRequest, "bids")) == Ref(bid)
    requires ImpReady(imp, bid)
    requires Truthy(ParamsOf(bid)) ==> SitePathReady(request)
    requires ImpFootprint(imp, bid) !! PromotedReads(bidderRequest)
    requires ImpFootprint(imp, bid) !! RequestPath(request)
    modifies ImpFootprint(imp, bid), RequestPath(request)
    ensures threw == old(GpidThrows(bid))
    ensures threw ==> unchanged(old(RequestPath(request)))
    ensures !threw && Truthy(old(ParamsOf(bid))) ==>
              && Prop(SiteExtOf(request), "blockthrough") == old(BlockthroughOf(bid))
              && old(BlockthroughOf(bid)).obj.props
                 == (if Truthy(old(AuctionIdOf(bid)))
                     then old(BlockthroughOf(bid).obj.props) - {"auctionID"}
                     else old(BlockthroughOf(bid).obj.props))
              && !Truthy(Prop(Prop(SiteExtOf(request), "blockthrough"), "auctionID"))
  {
    ghost var params := ParamsOf(bid);
    ghost var bt := BlockthroughOf(bid);
    ghost var promoted := Promoted(bidderRequest);
    ghost var site := SiteOf(request);
    ghost var siteExt := SiteExtOf(request);
    assert promoted == if Truthy(params) then Some(bt) else None;
    threw := Imp(imp, bid);
    if threw {
      return;
    }
    assert ParamsOf(bid) == params && FirstOf(Get(bidderRequest, "bids")) == Ref(bid);
    assert Promoted(bidderRequest) == promoted;
    assert SiteOf(request) == site && SiteExtOf(request) == siteExt;
    ghost var btAfter := if bt.Ref? then bt.obj.props else map[];
    Request(request, bidderRequest, debug);
    assert bt.Ref? ==> bt.obj.props == btAfter;
  }

  // ---------------------------------------------------------------------------------------
  // The bidResponse hook

  /** `(context.seatbid || {}).seat` */
  function SeatOf(context: JsObject): JsVal
    reads context, Deref(Get(context, "seatbid"))
  {
    var seatbid := Get(context, "seatbid");
    if Truthy(seatbid) then Prop(seatbid, "seat") else Undefined
  }

  /** The bidResponse hook, run on the bid response object the converter built. */
  method BidResponse(bidResponse: JsObject, context: JsObject)
    modifies bidResponse
    ensures bidResponse.props == old(bidResponse.props)["btBidderCode" := old(SeatOf(context))]
    ensures Get(bidResponse, "btBidderCode") ==
              if Truthy(old(Get(context, "seatbid"))) then old(Prop(Get(context, "seatbid"), "seat"))
              else Undefined
  {
    var seat := SeatOf(context);
    bidResponse.Set("btBidderCode", seat);
  }

  // ---------------------------------------------------------------------------------------
  // buildRequests and interpretResponse

  /** One outbound HTTP request descriptor; `D` is the type of the converter's ORTB request. */
  datatype ServerRequest<D> = ServerRequest(httpMethod: string, url: string, data: D, bids: seq<JsVal>)

  /** The HTTP response as the host hands it over. */
  datatype ServerResponse = ServerResponse(body: JsVal)

  /**
   * buildRequests: every valid bid goes into one POST to the fixed endpoint. `toOrtb` stands
   * for the converter's toORTB, applied to the bids and the bidder request.
   */
  function BuildRequests<D>(toOrtb: (seq<JsVal>, JsVal) -> D, validBidRequests: seq<JsVal>,
                            bidderRequest: JsVal): (r: seq<ServerRequest<D>>)
    ensures |r| == 1
    ensures r[0].httpMethod == "POST" && r[0].url == ENDPOINT_URL
    ensures r[0].data == toOrtb(validBidRequests, bidderRequest)
    ensures r[0].bids == validBidRequests
  {
    [ServerRequest("POST", ENDPOINT_URL, toOrtb(validBidRequests, bidderRequest), validBidRequests)]
  }

  /**
   * interpretResponse: no bids when the response or the request is missing, otherwise the
   * bids the converter's fromORTB (`fromOrtb`) reads from the body against the request's data.
   */
  function InterpretResponse<D, B>(fromOrtb: (JsVal, D) -> seq<B>, serverResponse: Option<ServerResponse>,
                                   request: Option<ServerRequest<D>>): (r: seq<B>)
    ensures serverResponse.None? || request.None? ==> r == []
    ensures serverResponse.Some? && request.Some? ==>
              r == fromOrtb(serverResponse.value.body, request.value.data)
  {
    if serverResponse.None? || request.None? then []
    else fromOrtb(serverResponse.value.body, request.value.data)
  }

  /** Interpreting a response to the descriptor buildRequests made hands fromORTB exactly toORTB's request. */
  lemma InterpretBuiltRequest<D, B>(toOrtb: (seq<JsVal>, JsVal) -> D, fromOrtb: (JsVal, D) -> seq<B>,
                                    validBidRequests: seq<JsVal>, bidderRequest: JsVal, response: ServerResponse)
    ensures InterpretResponse(fromOrtb, Some(response), Some(BuildRequests(toOrtb, validBidRequests, bidderRequest)[0]))
            == fromOrtb(response.body, toOrtb(validBidRequests, bidderRequest))
  {
  }

  // ---------------------------------------------------------------------------------------
  // getUserSyncs

  /** The GDPR consent object; an absent field reads as undefined. */
  datatype GdprConsent = GdprConsent(gdprApplies: Option<bool>, consentString: Option<string>)

  /** The GPP consent object; an absent field reads as undefined. */
  datatype GppConsent = GppConsent(gppString: Option<string>, applicableSections: Option<seq<int>>)

  /** One user sync the host should run. */
  datatype UserSync = UserSync(kind: string, url: string)

  /** `String(Number(gdprApplies))`: "1", "0", or "NaN" for undefined. */
  function GdprFlag(applies: Option<bool>): string
  {
    match applies
    case Some(true) => "1"
    case Some(false) => "0"
    case None => "NaN"
  }

  /** `String(s)` for a string that may be undefined. */
  function StringText(s: Option<string>): string
  {
    if s.Some? then s.value else "undefined"
  }

  function DigitText(d: nat): char
    requires d < 10
  {
    "0123456789"[d]
  }

  /** The decimal text of a natural number. */
  function NatText(n: nat): string
  {
    if n < 10 then [DigitText(n)] else NatText(n / 10) + [DigitText(n % 10)]
  }

  /** `String(i)` for an integer. */
  function IntText(i: int): string
  {
    if i < 0 then "-" + NatText(-i) else NatText(i)
  }

  /** `String(a)` for an array of integers: the elements joined by commas. */
  function JoinedText(a: seq<int>): string
  {
    if a == [] then ""
    else if |a| == 1 then IntText(a[0])
    else IntText(a[0]) + "," + JoinedText(a[1..])
  }

  /** `String(applicableSections)` for an array that may be undefined. */
  function SectionsText(sections: Option<seq<int>>): string
  {
    if sections.Some? then JoinedText(sections.value) else "undefined"
  }

  /** `if (uspConsent)` */
  predicate UspTruthy(usp: Option<string>)
  {
    usp.Some? && usp.value != ""
  }

  /** The pairs getUserSyncs sets for a GDPR consent. */
  function GdprParams(gdpr: Option<GdprConsent>): seq<Param>
  {
    if gdpr.Some?
    then [("gdpr", GdprFlag(gdpr.value.gdprApplies)), ("gdpr_consent", StringText(gdpr.value.consentString))]
    else []
  }

  /** The pairs getUserSyncs sets for a GPP consent. */
  function GppParams(gpp: Option<GppConsent>): seq<Param>
  {
    if gpp.Some?
    then [("gpp", StringText(gpp.value.gppString)), ("gpp_sid", SectionsText(gpp.value.applicableSections))]
    else []
  }

  /** The pair getUserSyncs sets for a US privacy string. */
  function UspParams(usp: Option<string>): seq<Param>
  {
    if UspTruthy(usp) then [("us_privacy", usp.value)] else []
  }

  /** The query of the sync URL, in the order getUserSyncs sets its parameters. */
  function SyncQuery(gdpr: Option<GdprConsent>, usp: Option<string>, gpp: Option<GppConsent>): seq<Param>
  {
    GdprParams(gdpr) + GppParams(gpp) + UspParams(usp)
  }

  /** The parameter names the sync URL may carry, in the order they come in. */
  const SYNC_KEYS: seq<string> := ["gdpr", "gdpr_consent", "gpp", "gpp_sid", "us_privacy"]

  /** The position of a parameter name in SYNC_KEYS (|SYNC_KEYS| for any other name). */
  function KeyRank(k: string): nat
  {
    if k == "gdpr" then 0
    else if k == "gdpr_consent" then 1
    else if k == "gpp" then 2
    else if k == "gpp_sid" then 3
    else if k == "us_privacy" then 4
    else 5
  }

  /**
   * getUserSyncs: with iframes enabled, one iframe sync whose URL is SYNC_URL with the
   * query SyncQuery; otherwise none. `serialize` stands for the URL's `.href`.
   */
  method GetUserSyncs(serialize: (string, seq<Param>) -> string, iframeEnabled: bool,
                      gdprConsent: Option<GdprConsent>, uspConsent: Option<string>,
                      gppConsent: Option<GppConsent>) returns (syncs: seq<UserSync>)
    ensures syncs == if iframeEnabled
                     then [UserSync("iframe", serialize(SYNC_URL, SyncQuery(gdprConsent, uspConsent, gppConsent)))]
                     else []
  {
    syncs := [];
    var syncUrl := new Url(SYNC_URL);
    if iframeEnabled {
      var params := syncUrl.searchParams;
      if gdprConsent.Some? {
        params.Set("gdpr", GdprFlag(gdprConsent.value.gdprApplies));
        params.Set("gdpr_consent", StringText(gdprConsent.value.consentString));
      }
      assert params.list == SyncQuery(gdprConsent, None, None);
      if gppConsent.Some? {
        params.Set("gpp", StringText(gppConsent.value.gppString));
        params.Set("gpp_sid", SectionsText(gppConsent.value.applicableSections));
      }
      assert params.list == SyncQuery(gdprConsent, None, gppConsent);
      if UspTruthy(uspConsent) {
        params.Set("us_privacy", uspConsent.value);
      }
      assert params.list == SyncQuery(gdprConsent, uspConsent, gppConsent);
      syncs := syncs + [UserSync("iframe", syncUrl.Href(serialize))];
    }
  }

  /** The values a parameter has in the sync query: those of the three groups, in order. */
  lemma SyncQuerySplit(gdpr: Option<GdprConsent>, usp: Option<string>, gpp: Option<GppConsent>, n: string)
    ensures ValuesOf(SyncQuery(gdpr, usp, gpp), n)
            == ValuesOf(GdprParams(gdpr), n) + ValuesOf(GppParams(gpp), n) + ValuesOf(UspParams(usp), n)
  {
    ValuesOfAppend(GdprParams(gdpr) + GppParams(gpp), UspParams(usp), n);
    ValuesOfAppend(GdprParams(gdpr), GppParams(gpp), n);
  }

  lemma GdprParamsValues(gdpr: Option<GdprConsent>, n: string)
    ensures ValuesOf(GdprParams(gdpr), n)
            == if gdpr.None? then []
               else if n == "gdpr" then [GdprFlag(gdpr.value.gdprApplies)]
               else if n == "gdpr_consent" then [StringText(gdpr.value.consentString)]
               else []
  {
    if gdpr.Some? {
      var q := GdprParams(gdpr);
      ValuesOfPair(q[0], q[1], n);
    }
  }

  lemma GppParamsValues(gpp: Option<GppConsent>, n: string)
    ensures ValuesOf(GppParams(gpp), n)
            == if gpp.None? then []
               else if n == "gpp" then [StringText(gpp.value.gppString)]
               else if n == "gpp_sid" then [SectionsText(gpp.value.applicableSections)]
               else []
  {
    if gpp.Some? {
      var q := GppParams(gpp);
      ValuesOfPair(q[0], q[1], n);
    }
  }

  lemma UspParamsValues(usp: Option<string>, n: string)
    ensures ValuesOf(UspParams(usp), n) == if UspTruthy(usp) && n == "us_privacy" then [usp.value] else []
  {
    if UspTruthy(usp) {
      ValuesOfSingle(UspParams(usp)[0], n);
    }
  }

  /**
   * The value of each parameter of the sync query: gdpr is "1", "0" or "NaN" and gdpr_consent
   * the consent string, when there is a GDPR consent; gpp is the GPP string and gpp_sid the
   * applicable sections joined by commas, when there is a GPP consent; us_privacy is the US
   * privacy string when that is non-empty. Each appears once or not at all.
   */
  lemma SyncQueryValues(gdpr: Option<GdprConsent>, usp: Option<string>, gpp: Option<GppConsent>)
    ensures ValuesOf(SyncQuery(gdpr, usp, gpp), "gdpr")
            == (if gdpr.Some? then [GdprFlag(gdpr.value.gdprApplies)] else [])
    ensures ValuesOf(SyncQuery(gdpr, usp, gpp), "gdpr_consent")
            == (if gdpr.Some? then [StringText(gdpr.value.consentString)] else [])
    ensures ValuesOf(SyncQuery(gdpr, usp, gpp), "gpp")
            == (if gpp.Some? then [StringText(gpp.value.gppString)] else [])
    ensures ValuesOf(SyncQuery(gdpr, usp, gpp), "gpp_sid")
            == (if gpp.Some? then [SectionsText(gpp.value.applicableSections)] else [])
    ensures ValuesOf(SyncQuery(gdpr, usp, gpp), "us_privacy")
            == (if UspTruthy(usp) then [usp.value] else [])
  {
    SyncQueryKey(gdpr, usp, gpp, "gdpr");
    SyncQueryKey(gdpr, usp, gpp, "gdpr_consent");
    SyncQueryKey(gdpr, usp, gpp, "gpp");
    SyncQueryKey(gdpr, usp, gpp, "gpp_sid");
    SyncQueryKey(gdpr, usp, gpp, "us_privacy");
  }

  /** The values getUserSyncs gives the parameter `n`, read off the consents. */
  function SyncValues(gdpr: Option<GdprConsent>, usp: Option<string>, gpp: Option<GppConsent>,
                      n: string): seq<string>
  {
    if n == "gdpr" then (if gdpr.Some? then [GdprFlag(gdpr.value.gdprApplies)] else [])
    else if n == "gdpr_consent" then (if gdpr.Some? then [StringText(gdpr.value.consentString)] else [])
    else if n == "gpp" then (if gpp.Some? then [StringText(gpp.value.gppString)] else [])
    else if n == "gpp_sid" then (if gpp.Some? then [SectionsText(gpp.value.applicableSections)] else [])
    else if n == "us_privacy" then (if UspTruthy(usp) then [usp.value] else [])
    else []
  }

  lemma SyncQueryKey(gdpr: Option<GdprConsent>, usp: Option<string>, gpp: Option<GppConsent>, n: string)
    ensures ValuesOf(SyncQuery(gdpr, usp, gpp), n) == SyncValues(gdpr, usp, gpp, n)
  {
    SyncQuerySplit(gdpr, usp, gpp, n);
    GdprParamsValues(gdpr, n);
    GppParamsValues(gpp, n);
    UspParamsValues(usp, n);
  }

  /**
   * The query of getUserSyncs carries gdpr and gdpr_consent iff there is a GDPR consent, gpp
   * and gpp_sid iff there is a GPP consent, and us_privacy iff the US privacy string is non-empty.
   */
  lemma SyncQueryNames(gdpr: Option<GdprConsent>, usp: Option<string>, gpp: Option<GppConsent>)
    ensures var q := SyncQuery(gdpr, usp, gpp);
            && (HasName(q, "gdpr") <==> gdpr.Some?)
            && (HasName(q, "gdpr_consent") <==> gdpr.Some?)
            && (HasName(q, "gpp") <==> gpp.Some?)
            && (HasName(q, "gpp_sid") <==> gpp.Some?)
            && (HasName(q, "us_privacy") <==> UspTruthy(usp))
  {
    var q := SyncQuery(gdpr, usp, gpp);
    SyncQueryValues(gdpr, usp, gpp);
    HasNameValues(q, "gdpr");
    HasNameValues(q, "gdpr_consent");
    HasNameValues(q, "gpp");
    HasNameValues(q, "gpp_sid");
    HasNameValues(q, "us_privacy");
  }

  /** The names of the sync query follow the order of SYNC_KEYS, none twice, and no other name appears. */
  lemma SyncQueryOrder(gdpr: Option<GdprConsent>, usp: Option<string>, gpp: Option<GppConsent>)
    ensures var q := SyncQuery(gdpr, usp, gpp);
            && (forall i, j :: 0 <= i < j < |q| ==> KeyRank(q[i].0) < KeyRank(q[j].0))
            && (forall i :: 0 <= i < |q| ==> q[i].0 in SYNC_KEYS)
  {
  }

  lemma ValuesOfSingle(p: Param, n: string)
    ensures ValuesOf([p], n) == if p.0 == n then [p.1] else []
  {
    assert [p][1..] == [];
  }

  lemma ValuesOfPair(p: Param, p': Param, n: string)
    ensures ValuesOf([p, p'], n) == (if p.0 == n then [p.1] else []) + (if p'.0 == n then [p'.1] else [])
  {
    assert [p, p'] == [p] + [p'];
    ValuesOfAppend([p], [p'], n);
    ValuesOfSingle(p, n);
    ValuesOfSingle(p', n);
  }

  /** A name is in the list iff it has a value there. */
  lemma {:induction false} HasNameValues(q: seq<Param>, n: string)
    ensures HasName(q, n) <==> ValuesOf(q, n) != []
  {
    if q == [] {
    } else {
      HasNameValues(q[1..], n);
      assert HasName(q, n) <==> q[0].0 == n || HasName(q[1..], n) by {
        if HasName(q[1..], n) {
          var i :| 0 <= i < |q[1..]| && q[1..][i].0 == n;
          assert q[i + 1].0 == n;
        }
        if HasName(q, n) && q[0].0 != n {
          var i :| 0 <= i < |q| && q[i].0 == n;
          assert q[1..][i - 1].0 == n;
        }
      }
    }
  }

  /** A validated bid meets what the imp hook asks of its params. */
  lemma ValidBidHasBlockthroughObject(bid: JsObject)
    requires IsBidRequestValid(bid).Accepted?
    ensures BlockthroughOf(bid).Ref? && NonEmptyObject(BlockthroughOf(bid))
    ensures Truthy(ParamsOf(bid)) ==> ParamsOf(bid).Ref?
  {
  }
}
