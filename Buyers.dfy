/**
 * The buyer list of src/pages/ProfileClientes.jsx: the page loads the seller's buyers
 * (optionally restricted to one status), filters them by a name query, counts them per
 * status, and marks a buyer as contacted or sold after the backend accepts the change.
 * The HTTP exchanges are inputs here: whether the response was ok and what it carried.
 */
module Buyers {
  import opened Wrappers
  import JsText
  import Auth

  // ---------------------------------------------------------------------------
  // Data model
  // ---------------------------------------------------------------------------

  /** A buyer's `id` as the JSON payload gives it: absent/null, a number or a string. */
  datatype BuyerId = NoId | NumId(n: int) | TextId(s: string)

  /** `!!buyer.id`: 0, the empty string and a missing id are falsy. */
  predicate IdTruthy(id: BuyerId) {
    match id
    case NoId => false
    case NumId(n) => n != 0
    case TextId(s) => s != ""
  }

  /**
   * One buyer record. `name` and `status` may be missing; every other key of the JSON
   * object is kept, untouched, in `others`.
   */
  datatype Buyer = Buyer(id: BuyerId, name: Option<string>, status: Option<string>, others: map<string, string>)

  /** The `value`s of `statusFilters`, in order. */
  const StatusFilters: seq<string> := ["all", "pending", "contacted", "sold"]

  /** The base of the buyers endpoint. */
  const BuyersEndpoint: string := "https://liveshop.com.co/chat/buyers/"

  // ---------------------------------------------------------------------------
  // filteredClients
  // ---------------------------------------------------------------------------

  /**
   * `client?.name?.toLowerCase().includes(searchQuery.toLowerCase())`. Case folding is
   * the parameter `lower`; a buyer without a name never matches.
   */
  predicate MatchesQuery(b: Buyer, query: string, lower: string -> string) {
    b.name.Some? && JsText.Includes(lower(b.name.value), lower(query))
  }

  /** `filteredClients`: the buyers whose name matches the query, in their order. */
  function FilteredClients(buyers: seq<Buyer>, query: string, lower: string -> string): (r: seq<Buyer>)
    ensures forall b :: b in r <==> b in buyers && MatchesQuery(b, query, lower)
    ensures |r| <= |buyers|
  {
    if buyers == [] then []
    else if MatchesQuery(buyers[0], query, lower) then [buyers[0]] + FilteredClients(buyers[1..], query, lower)
    else FilteredClients(buyers[1..], query, lower)
  }

  /** The filter keeps order: filtering a concatenation concatenates the filtered parts. */
  lemma {:induction false} FilteredAppend(a: seq<Buyer>, b: seq<Buyer>, query: string, lower: string -> string)
    ensures FilteredClients(a + b, query, lower) == FilteredClients(a, query, lower) + FilteredClients(b, query, lower)
  {
    if a == [] {
      assert a + b == b;
    } else {
      assert (a + b)[0] == a[0];
      assert (a + b)[1..] == a[1..] + b;
      FilteredAppend(a[1..], b, query, lower);
    }
  }

  /**
   * With the empty query (and a case folding that keeps "" empty) the filter keeps
   * exactly the buyers that have a name: nameless buyers are dropped even then.
   */
  lemma EmptyQueryKeepsNamed(buyers: seq<Buyer>, lower: string -> string)
    requires lower("") == ""
    ensures forall b :: b in FilteredClients(buyers, "", lower) <==> b in buyers && b.name.Some?
  {
    forall b | b in buyers && b.name.Some?
      ensures MatchesQuery(b, "", lower)
    {
      JsText.IncludesEmpty(lower(b.name.value));
    }
  }

  // ---------------------------------------------------------------------------
  // statusTotals
  // ---------------------------------------------------------------------------

  /** `buyers.filter((buyer) => buyer.status === s).length`. */
  function CountStatus(buyers: seq<Buyer>, s: string): (n: nat)
    ensures n <= |buyers|
  {
    if buyers == [] then 0
    else (if buyers[0].status == Some(s) then 1 else 0) + CountStatus(buyers[1..], s)
  }

  /** The value the reducer stores under one filter value. */
  function TotalFor(f: string, buyers: seq<Buyer>): nat {
    if f == "all" then |buyers| else CountStatus(buyers, f)
  }

  /** The `reduce` over the filters, threading the accumulator object. */
  function Tally(filters: seq<string>, buyers: seq<Buyer>, acc: map<string, nat>): map<string, nat> {
    if filters == [] then acc
    else Tally(filters[1..], buyers, acc[filters[0] := TotalFor(filters[0], buyers)])
  }

  /** `statusTotals`. */
  function StatusTotals(buyers: seq<Buyer>): map<string, nat> {
    Tally(StatusFilters, buyers, map[])
  }

  /** What the reduce leaves: every filter value holds its own total, other keys are kept. */
  lemma {:induction false} TallyContents(filters: seq<string>, buyers: seq<Buyer>, acc: map<string, nat>)
    ensures Tally(filters, buyers, acc).Keys == acc.Keys + set f | f in filters
    ensures forall f :: f in filters ==> Tally(filters, buyers, acc)[f] == TotalFor(f, buyers)
    ensures forall k :: k in acc && k !in filters ==> Tally(filters, buyers, acc)[k] == acc[k]
  {
    if filters != [] {
      var acc' := acc[filters[0] := TotalFor(filters[0], buyers)];
      TallyContents(filters[1..], buyers, acc');
      assert forall f :: f in filters <==> f == filters[0] || f in filters[1..];
    }
  }

  /**
   * `statusTotals` has one entry per filter: "all" is the number of buyers, each other
   * value the number of buyers with that status.
   */
  lemma StatusTotalsSpec(buyers: seq<Buyer>)
    ensures StatusTotals(buyers).Keys == {"all", "pending", "contacted", "sold"}
    ensures StatusTotals(buyers)["all"] == |buyers|
    ensures StatusTotals(buyers)["pending"] == CountStatus(buyers, "pending")
    ensures StatusTotals(buyers)["contacted"] == CountStatus(buyers, "contacted")
    ensures StatusTotals(buyers)["sold"] == CountStatus(buyers, "sold")
  {
    TallyContents(StatusFilters, buyers, map[]);
    assert (set f | f in StatusFilters) == {"all", "pending", "contacted", "sold"};
  }

  /** A buyer has at most one status, so the three status counts add up to at most "all". */
  lemma {:induction false} StatusCountsWithinAll(buyers: seq<Buyer>)
    ensures CountStatus(buyers, "pending") + CountStatus(buyers, "contacted") + CountStatus(buyers, "sold") <= |buyers|
  {
    if buyers != [] {
      StatusCountsWithinAll(buyers[1..]);
    }
  }

  // ---------------------------------------------------------------------------
  // handleStatusUpdate
  // ---------------------------------------------------------------------------

  /** The guard `!buyer?.id || buyer.status === status`. */
  predicate SkipsUpdate(buyer: Buyer, status: string) {
    !IdTruthy(buyer.id) || buyer.status == Some(status)
  }

  /** `prev.map((item) => item.id === buyer.id ? { ...item, status } : item)`. */
  function SetStatus(buyers: seq<Buyer>, id: BuyerId, status: string): (r: seq<Buyer>)
    ensures |r| == |buyers|
    ensures forall i :: 0 <= i < |buyers| ==>
      r[i] == if buyers[i].id == id then buyers[i].(status := Some(status)) else buyers[i]
  {
    if buyers == [] then []
    else [if buyers[0].id == id then buyers[0].(status := Some(status)) else buyers[0]]
         + SetStatus(buyers[1..], id, status)
  }

  /**
   * The local update touches only the status of the buyers with the id: ids, names and
   * other keys everywhere, and everything about the other buyers, stay as they were.
   */
  lemma SetStatusOnlyTouchesMatching(buyers: seq<Buyer>, id: BuyerId, status: string, i: int)
    requires 0 <= i < |buyers|
    ensures SetStatus(buyers, id, status)[i].id == buyers[i].id
    ensures SetStatus(buyers, id, status)[i].name == buyers[i].name
    ensures SetStatus(buyers, id, status)[i].others == buyers[i].others
    ensures buyers[i].id == id ==> SetStatus(buyers, id, status)[i].status == Some(status)
    ensures buyers[i].id != id ==> SetStatus(buyers, id, status)[i] == buyers[i]
  {
  }

  /** Which toast `handleStatusUpdate` ends with (none when it returns at the guard). */
  datatype UpdateOutcome = Skipped | SessionExpired | StatusUpdated | UpdateFailed

  /** The PATCH URL; unlike the GET, it does not encode the username or the status. */
  function StatusUrl(username: string, status: string): string {
    BuyersEndpoint + username + "/status?status=" + status
  }

  // ---------------------------------------------------------------------------
  // fetchBuyers: the request it builds
  // ---------------------------------------------------------------------------

  /** The `URLSearchParams` built by `fetchBuyers`: a status only when one is selected. */
  function StatusParams(activeStatus: string): (ps: seq<(string, string)>)
    ensures ps == [] <==> activeStatus == "all"
    ensures forall p :: p in ps ==> p == ("status", activeStatus)
  {
    if activeStatus != "all" then [("status", activeStatus)] else []
  }

  /** `params.toString()`: `key=value` pairs joined by `&`, each part form-encoded by `enc`. */
  function QueryString(ps: seq<(string, string)>, enc: string -> string): (q: string)
    ensures q == "" <==> ps == []
  {
    if ps == [] then ""
    else if |ps| == 1 then enc(ps[0].0) + "=" + enc(ps[0].1)
    else enc(ps[0].0) + "=" + enc(ps[0].1) + "&" + QueryString(ps[1..], enc)
  }

  /** The GET URL: the endpoint, the encoded username and, when non-empty, the query. */
  function BuyersUrl(username: string, activeStatus: string,
                     encodeComponent: string -> string, encodeParam: string -> string): string
  {
    var q := QueryString(StatusParams(activeStatus), encodeParam);
    BuyersEndpoint + encodeComponent(username) + (if q != "" then "?" + q else "")
  }

  /** A `status` query parameter is sent exactly when the selected filter is not "all". */
  lemma StatusQueryIffFiltered(username: string, activeStatus: string,
                               encodeComponent: string -> string, encodeParam: string -> string)
    ensures activeStatus == "all" <==>
      BuyersUrl(username, activeStatus, encodeComponent, encodeParam) == BuyersEndpoint + encodeComponent(username)
    ensures activeStatus != "all" ==>
      BuyersUrl(username, activeStatus, encodeComponent, encodeParam)
        == BuyersEndpoint + encodeComponent(username) + "?" + encodeParam("status") + "=" + encodeParam(activeStatus)
  {
  }

  // ---------------------------------------------------------------------------
  // The page state
  // ---------------------------------------------------------------------------

  /** The state of `ProfileClientes` that the logic reads and writes. */
  class ClientsPage {
    var searchQuery: string
    var buyers: seq<Buyer>
    var isLoading: bool
    var activeStatus: string
    var isUpdatingStatus: Option<BuyerId>

    /** The initial `useState` values. */
    constructor ()
      ensures searchQuery == "" && buyers == [] && isLoading && activeStatus == "all"
      ensures isUpdatingStatus == None
    {
      searchQuery := "";
      buyers := [];
      isLoading := true;
      activeStatus := "all";
      isUpdatingStatus := None;
    }

    /**
     * `fetchBuyers`, with the stored credentials, the response and whether the page is
     * still mounted when it arrives as inputs. Returns the URL requested, or `None` when
     * the credentials are missing and no request is made. A missing credential, a
     * non-ok response and a payload that is not an array all leave an empty list.
     */
    method FetchBuyers(username: Option<string>, token: Option<string>, responseOk: bool,
                       payload: Option<seq<Buyer>>, stillMounted: bool,
                       encodeComponent: string -> string, encodeParam: string -> string)
      returns (url: Option<string>)
      modifies this
      ensures url == if Auth.Truthy(username) && Auth.Truthy(token)
                     then Some(BuyersUrl(username.value, activeStatus, encodeComponent, encodeParam))
                     else None
      ensures stillMounted ==>
                buyers == (if url.Some? && responseOk && payload.Some? then payload.value else [])
      ensures !stillMounted ==> buyers == old(buyers)
      ensures isLoading == !stillMounted
      ensures searchQuery == old(searchQuery) && activeStatus == old(activeStatus)
      ensures isUpdatingStatus == old(isUpdatingStatus)
    {
      isLoading := true;
      if !Auth.Truthy(username) || !Auth.Truthy(token) {
        url := None;
        if stillMounted {
          buyers := [];
          isLoading := false;
        }
        return;
      }
      url := Some(BuyersUrl(username.value, activeStatus, encodeComponent, encodeParam));
      if stillMounted {
        if responseOk && payload.Some? {
          buyers := payload.value;
        } else {
          buyers := [];
        }
        isLoading := false;
      }
    }

    /**
     * `handleStatusUpdate(buyer, status)`, with the stored credentials and the outcome
     * of the PATCH as inputs. Returns the toast shown and the URL patched, if any.
     */
    method HandleStatusUpdate(buyer: Buyer, status: string, token: Option<string>,
                              username: Option<string>, responseOk: bool)
      returns (outcome: UpdateOutcome, patched: Option<string>)
      modifies this
      ensures outcome == Skipped <==> SkipsUpdate(buyer, status)
      ensures outcome == SessionExpired <==>
        !SkipsUpdate(buyer, status) && !(Auth.Truthy(token) && Auth.Truthy(username))
      ensures outcome == StatusUpdated <==>
        !SkipsUpdate(buyer, status) && Auth.Truthy(token) && Auth.Truthy(username) && responseOk
      ensures patched.Some? <==> outcome == StatusUpdated || outcome == UpdateFailed
      ensures patched.Some? ==> patched == Some(StatusUrl(username.value, status))
      ensures buyers == if outcome == StatusUpdated then SetStatus(old(buyers), buyer.id, status)
                        else old(buyers)
      ensures isUpdatingStatus == if patched.Some? then None else old(isUpdatingStatus)
      ensures searchQuery == old(searchQuery) && activeStatus == old(activeStatus)
      ensures isLoading == old(isLoading)
    {
      if SkipsUpdate(buyer, status) {
        return Skipped, None;
      }
      if !Auth.Truthy(token) || !Auth.Truthy(username) {
        return SessionExpired, None;
      }
      isUpdatingStatus := Some(buyer.id);
      patched := Some(StatusUrl(username.value, status));
      if responseOk {
        buyers := SetStatus(buyers, buyer.id, status);
        outcome := StatusUpdated;
      } else {
        outcome := UpdateFailed;
      }
      isUpdatingStatus := None;
    }
  }
}
