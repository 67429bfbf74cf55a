/**
 * What the three "add" modals share when a user submits: the toast a check
 * shows when it stops the submission, the results of the remote calls the
 * modals consult (the content check and the marketplace eligibility query),
 * the ordered chain of checks where the first failure wins, and the price
 * terms of a free or paid listing.
 */
module Submission {
  import opened Optional
  import opened Text

  /** A toast: its title, its description if any, and whether it is shown as destructive. */
  datatype Toast = Toast(title: string, description: Option<string>, destructive: bool)

  /** The `{ valid, error }` data the remote content check returns. */
  datatype ValidationData = ValidationData(valid: bool, error: Option<string>)

  /** The remote content check: whether a request is in flight, and the data of the last one, if any. */
  datatype RemoteValidation = RemoteValidation(isPending: bool, data: Option<ValidationData>)

  /** The `{ isEligible, reason }` data of the marketplace eligibility query. */
  datatype EligibilityData = EligibilityData(isEligible: bool, reason: Option<string>)

  /** The eligibility query: still loading, failed, and the data it returned, if any. */
  datatype EligibilityQuery = EligibilityQuery(isLoading: bool, hasError: bool, data: Option<EligibilityData>)

  /** One check of a submit handler: it lets the submission continue, or stops it, with a toast or silently. */
  datatype Gate = Pass | Block(toast: Option<Toast>)

  /** What a submit handler does: stop with the toast of the failing check, or go on with a request. */
  datatype Decision<P> = Halt(toast: Option<Toast>) | Proceed(request: P)

  /** The checks of a submit handler run in order and the first that blocks ends the handler. */
  function FirstBlock(gates: seq<Gate>): Gate {
    if gates == [] then Pass
    else if gates[0].Block? then gates[0]
    else FirstBlock(gates[1..])
  }

  predicate AllPass(gates: seq<Gate>) {
    forall i :: 0 <= i < |gates| ==> gates[i].Pass?
  }

  lemma AllPassAppend(a: seq<Gate>, b: seq<Gate>)
    ensures AllPass(a + b) <==> AllPass(a) && AllPass(b)
  {
    if AllPass(a) && AllPass(b) {
      forall i | 0 <= i < |a + b| ensures (a + b)[i].Pass? {
        if i >= |a| {
          assert (a + b)[i] == b[i - |a|];
        }
      }
    }
    if AllPass(a + b) {
      forall i | 0 <= i < |a| ensures a[i].Pass? {
        assert (a + b)[i] == a[i];
      }
      forall i | 0 <= i < |b| ensures b[i].Pass? {
        assert (a + b)[|a| + i] == b[i];
      }
    }
  }

  /** The chain lets the submission through exactly when every check does. */
  lemma {:induction false} FirstBlockPassesIffAllPass(gates: seq<Gate>)
    ensures FirstBlock(gates).Pass? <==> AllPass(gates)
  {
    if gates != [] {
      FirstBlockPassesIffAllPass(gates[1..]);
      assert forall i :: 1 <= i < |gates| ==> gates[i] == gates[1..][i - 1];
    }
  }

  /** When every check before the `i`th passes and the `i`th blocks, the chain stops with its toast. */
  lemma {:induction false} FirstBlockIsEarliest(gates: seq<Gate>, i: nat)
    requires i < |gates| && gates[i].Block?
    requires forall j :: 0 <= j < i ==> gates[j].Pass?
    ensures FirstBlock(gates) == gates[i]
  {
    if i > 0 {
      assert gates[0].Pass?;
      FirstBlockIsEarliest(gates[1..], i - 1);
    }
  }

  /** Checks that all pass leave the outcome to the checks after them. */
  lemma {:induction false} FirstBlockAfterPasses(a: seq<Gate>, b: seq<Gate>)
    requires AllPass(a)
    ensures FirstBlock(a + b) == FirstBlock(b)
  {
    if a != [] {
      assert (a + b)[0] == a[0] && a[0].Pass?;
      assert (a + b)[1..] == a[1..] + b;
      assert AllPass(a[1..]) by {
        forall i | 0 <= i < |a[1..]| ensures a[1..][i].Pass? {
          assert a[1..][i] == a[i + 1];
        }
      }
      FirstBlockAfterPasses(a[1..], b);
    } else {
      assert a + b == b;
    }
  }

  /** A check that blocks hides every check after it. */
  lemma {:induction false} FirstBlockBeforeRest(a: seq<Gate>, b: seq<Gate>)
    requires FirstBlock(a).Block?
    ensures FirstBlock(a + b) == FirstBlock(a)
  {
    assert (a + b)[0] == a[0];
    if a[0].Pass? {
      assert (a + b)[1..] == a[1..] + b;
      FirstBlockBeforeRest(a[1..], b);
    }
  }

  /** Runs the chain: stop with the first blocking toast, or go on with the request. */
  function Decide<P>(gates: seq<Gate>, request: P): (d: Decision<P>)
    ensures d.Proceed? <==> AllPass(gates)
    ensures d.Proceed? ==> d.request == request
    ensures d.Halt? ==> FirstBlock(gates).Block? && d.toast == FirstBlock(gates).toast
  {
    FirstBlockPassesIffAllPass(gates);
    match FirstBlock(gates)
    case Pass => Proceed(request)
    case Block(toast) => Halt(toast)
  }

  /** The check that blocks with `toast` when `failed` holds. */
  function Check(failed: bool, toast: Toast): Gate {
    if failed then Block(Some(toast)) else Pass
  }

  /** A destructive toast with the given title and description. */
  function Destructive(title: string, description: Option<string>): Toast {
    Toast(title, description, true)
  }

  /**
   * `if (remote.data && !remote.data.valid)`: the remote check blocks only
   * when it has returned data marked invalid, showing that data's error.
   */
  function RemoteGate(title: string, remote: RemoteValidation): (g: Gate)
    ensures g.Block? <==> remote.data.Some? && !remote.data.value.valid
    ensures g.Block? ==> g.toast == Some(Destructive(title, remote.data.value.error))
  {
    if remote.data.Some? && !remote.data.value.valid then Block(Some(Destructive(title, remote.data.value.error)))
    else Pass
  }

  /**
   * The eligibility checks of a paid listing, in order: a query still loading,
   * a query that failed (the check fails closed), and data saying the user is
   * not eligible, with its reason. A free listing skips them all, and a paid
   * one with neither data nor error passes.
   */
  function EligibilityGates(isFree: bool, q: EligibilityQuery): seq<Gate> {
    if isFree then []
    else
      [ Check(q.isLoading, Toast("Checking eligibility...", None, false)),
        Check(q.hasError, Destructive("Unable to verify eligibility", Some("Please try again later"))),
        if q.data.Some? && !q.data.value.isEligible
        then Block(Some(Destructive("Not eligible for marketplace", q.data.value.reason)))
        else Pass ]
  }

  /** The eligibility checks let a listing through exactly when it is free or the query settled without refusing it. */
  lemma EligibilityGatesPass(isFree: bool, q: EligibilityQuery)
    ensures AllPass(EligibilityGates(isFree, q)) <==> isFree || (!q.isLoading && !q.hasError && (q.data.None? || q.data.value.isEligible))
  {
    var g := EligibilityGates(isFree, q);
    if !isFree {
      assert g[0].Pass? <==> !q.isLoading;
      assert g[1].Pass? <==> !q.hasError;
      assert g[2].Pass? <==> q.data.None? || q.data.value.isEligible;
      assert |g| == 3;
    }
  }

  /**
   * The checks the prompt and agent modals make after their entry checks, in
   * order: the remote verdict (titled `title`), at least one category, and
   * for a paid listing the eligibility checks.
   */
  function ListingGates(title: string, remote: RemoteValidation, categories: seq<string>,
                        isFree: bool, q: EligibilityQuery): seq<Gate> {
    [ RemoteGate(title, remote),
      Check(categories == [], Destructive("Please select at least one category", None)) ]
    + EligibilityGates(isFree, q)
  }

  /**
   * The listing checks pass exactly when the remote check did not find the
   * content invalid, a category is chosen, and the listing is free or the
   * eligibility query settled without refusing it.
   */
  lemma ListingGatesPass(title: string, remote: RemoteValidation, categories: seq<string>,
                         isFree: bool, q: EligibilityQuery)
    ensures AllPass(ListingGates(title, remote, categories, isFree, q)) <==>
              && !(remote.data.Some? && !remote.data.value.valid)
              && categories != []
              && (isFree || (!q.isLoading && !q.hasError && (q.data.None? || q.data.value.isEligible)))
  {
    var head := [ RemoteGate(title, remote),
                  Check(categories == [], Destructive("Please select at least one category", None)) ];
    AllPassAppend(head, EligibilityGates(isFree, q));
    assert AllPass(head) <==> head[0].Pass? && head[1].Pass?;
    EligibilityGatesPass(isFree, q);
  }

  /** `value || fallback` on an optional string: a missing or empty value gives way to the fallback. */
  function OrElse(value: Option<string>, fallback: string): (r: string)
    ensures value.Some? && value.value != "" ==> r == value.value
    ensures value.None? || value.value == "" ==> r == fallback
  {
    if value.Some? && value.value != "" then value.value else fallback
  }

  /** The price and seller wallet a listing is submitted with: `parseFloat` of the price field (None for NaN). */
  datatype PriceTerms = PriceTerms(price: Option<real>, sellerWalletAddress: string)

  /** A free listing is submitted at price 0 with no wallet; a paid one with the parsed price and the wallet. */
  function PriceTermsOf(isFree: bool, price: string, walletAddress: string, parseFloat: string -> Option<real>): (t: PriceTerms)
    ensures isFree ==> t == PriceTerms(Some(0.0), "")
    ensures !isFree ==> t == PriceTerms(parseFloat(price), walletAddress)
  {
    if isFree then PriceTerms(Some(0.0), "") else PriceTerms(parseFloat(price), walletAddress)
  }

  /**
   * `!value || isNaN(parseFloat(value))`: the price field gives no number to
   * convert, so the conversion clears its result without starting a lookup.
   */
  predicate NothingToConvert(value: string, parseFloat: string -> Option<real>) {
    value == "" || parseFloat(value).None?
  }
}
