/** The pure decisions on the purchase paths of bot.py: the callback data carried by
    the "buy" buttons and how it is parsed back, the text that triggers a direct
    purchase, and how a failed purchase is explained from the provider's error text. */
module Purchase {
  import opened PyText

  const PurchaseAction: string := "purchase"
  const CallbackSeparator: char := '_'

  /** The callback data of the button offering `phone`: "purchase_" followed by the number. */
  function PurchaseCallbackData(phone: string): (data: string)
    ensures |data| == |PurchaseAction| + 1 + |phone|
    ensures StartsWith(data, PurchaseAction) && data[|PurchaseAction|] == CallbackSeparator
    ensures data[|PurchaseAction| + 1..] == phone
  {
    PurchaseAction + [CallbackSeparator] + phone
  }

  /** What `purchase_number_callback_handler` makes of a button's callback data. */
  datatype PurchaseRequest =
    | Unsplittable               // no '_': unpacking `split('_', 1)` into two names fails
    | InvalidRequest             // not a purchase action, or the number lacks its leading '+'
    | Request(number: string)

  function ParsePurchaseCallbackData(data: string): (r: PurchaseRequest)
    ensures r.Unsplittable? <==> CallbackSeparator !in data
    ensures r.Request? ==> StartsWith(r.number, "+") && data == PurchaseCallbackData(r.number)
  {
    var parts := SplitOnceAt(data, CallbackSeparator);
    if |parts| != 2 then Unsplittable
    else if parts[0] != PurchaseAction || !StartsWith(parts[1], "+") then InvalidRequest
    else Request(parts[1])
  }

  /** The data on a button for a number starting with '+' parses back to that number,
      even when the number itself contains '_'. */
  lemma PurchaseCallbackRoundTrip(phone: string)
    requires StartsWith(phone, "+")
    ensures ParsePurchaseCallbackData(PurchaseCallbackData(phone)) == Request(phone)
  {
    assert CallbackSeparator !in PurchaseAction;
    SplitOnceAtJoin(PurchaseAction, CallbackSeparator, phone);
  }

  /** The callback data of the buy menu: one button per number the provider offered,
      in the order offered. */
  method PurchaseKeyboard(numbers: seq<string>) returns (data: seq<string>)
    ensures |data| == |numbers|
    ensures forall i :: 0 <= i < |numbers| ==> data[i] == PurchaseCallbackData(numbers[i])
    ensures forall i :: 0 <= i < |numbers| && StartsWith(numbers[i], "+") ==>
      ParsePurchaseCallbackData(data[i]) == Request(numbers[i])
  {
    data := [];
    for k := 0 to |numbers|
      invariant |data| == k
      invariant forall i :: 0 <= i < k ==> data[i] == PurchaseCallbackData(numbers[i])
    {
      data := data + [PurchaseCallbackData(numbers[k])];
    }
    forall i | 0 <= i < |numbers| && StartsWith(numbers[i], "+")
      ensures ParsePurchaseCallbackData(data[i]) == Request(numbers[i])
    {
      PurchaseCallbackRoundTrip(numbers[i]);
    }
  }

  /** The (stripped) message text that `handle_general_text` treats as a number to buy:
      exactly a '+' followed by at least seven ASCII digits. */
  predicate IsDirectPurchaseText(text: string)
    ensures IsDirectPurchaseText(text) <==>
      |text| >= 8 && text[0] == '+' && forall i :: 1 <= i < |text| ==> IsAsciiDigit(text[i])
  {
    StartsWith(text, "+") && |text| > 7 && IsDigits(text[1..])
  }

  // Fragments of the provider's error text that select a user-facing explanation.
  const UniquenessViolation: string := "violates a uniqueness constraint"
  const AlreadyProvisioned: string := "already provisioned"
  const NotBeFound: string := "not be found"
  const NotAvailable: string := "not available"
  const AreaCodeRequiredText: string := "AreaCode is required for an address-based search"

  /** The explanation a failed purchase is given. */
  datatype PurchaseFailure =
    | AlreadyOwned          // on this account already, or in use by someone else
    | NoLongerAvailable     // no longer on offer
    | AreaCodeRequired      // the provider wants an area code (direct purchase only)
    | Unclassified          // the generic wording of the path that failed

  /** `needle in str(e).lower()`: the needle occurs in the message in any letter case. */
  predicate Mentions(message: string, needle: string)
    ensures Mentions(message, needle) <==> OccursAnyCase(message, needle)
  {
    LowerContainsIff(message, needle);
    Contains(Lower(message), needle)
  }

  /** The explanation on the button path, first match wins. */
  function ClassifyPurchaseError(message: string): (r: PurchaseFailure)
    ensures r != AreaCodeRequired
  {
    if Mentions(message, UniquenessViolation) || Mentions(message, AlreadyProvisioned) then AlreadyOwned
    else if Mentions(message, NotBeFound) || Mentions(message, NotAvailable) then NoLongerAvailable
    else Unclassified
  }

  /** The explanation on the direct-purchase path: the area-code check is case-sensitive,
      and availability is never mentioned. */
  function ClassifyDirectPurchaseError(message: string): (r: PurchaseFailure)
    ensures r != NoLongerAvailable
  {
    if Mentions(message, UniquenessViolation) || Mentions(message, AlreadyProvisioned) then AlreadyOwned
    else if Contains(message, AreaCodeRequiredText) then AreaCodeRequired
    else Unclassified
  }

  /** `needle` is at position `k` of `message` once letters are lower-cased. */
  predicate LowerOccursAt(message: string, needle: string, k: nat) {
    k + |needle| <= |message| && Lower(message[k..k + |needle|]) == needle
  }

  /** `needle` occurs in `message` when letter case is ignored. */
  ghost predicate OccursAnyCase(message: string, needle: string) {
    exists k: nat :: LowerOccursAt(message, needle, k)
  }

  /** `needle` occurs in `message` exactly as written. */
  ghost predicate Occurs(message: string, needle: string) {
    exists k: nat :: OccursAt(message, needle, k)
  }

  lemma LowerContainsIff(message: string, needle: string)
    ensures Contains(Lower(message), needle) <==> OccursAnyCase(message, needle)
  {
    var lower := Lower(message);
    ContainsIff(lower, needle);
    forall k: nat | k + |needle| <= |message|
      ensures OccursAt(lower, needle, k) <==> LowerOccursAt(message, needle, k)
    {
      assert lower[k..k + |needle|] == Lower(message[k..k + |needle|]);
    }
  }

  /** The button path's explanation, stated over occurrences: the two "already owned"
      phrases win over the two "no longer available" ones, in any letter case. */
  lemma ClassifyPurchaseErrorSpec(message: string)
    ensures ClassifyPurchaseError(message) ==
      if OccursAnyCase(message, UniquenessViolation) || OccursAnyCase(message, AlreadyProvisioned) then AlreadyOwned
      else if OccursAnyCase(message, NotBeFound) || OccursAnyCase(message, NotAvailable) then NoLongerAvailable
      else Unclassified
  {
  }

  /** The direct path's explanation, stated over occurrences. */
  lemma ClassifyDirectPurchaseErrorSpec(message: string)
    ensures ClassifyDirectPurchaseError(message) ==
      if OccursAnyCase(message, UniquenessViolation) || OccursAnyCase(message, AlreadyProvisioned) then AlreadyOwned
      else if Occurs(message, AreaCodeRequiredText) then AreaCodeRequired
      else Unclassified
  {
    ContainsIff(message, AreaCodeRequiredText);
  }

  /** The two paths disagree: an error that only says the number is not available (or
      cannot be found) is explained as such after a button press, but generically after
      a typed number. */
  lemma AvailabilityExplainedOnlyOnButtonPath(message: string)
    requires OccursAnyCase(message, NotBeFound) || OccursAnyCase(message, NotAvailable)
    requires !OccursAnyCase(message, UniquenessViolation) && !OccursAnyCase(message, AlreadyProvisioned)
    requires !Occurs(message, AreaCodeRequiredText)
    ensures ClassifyPurchaseError(message) == NoLongerAvailable
    ensures ClassifyDirectPurchaseError(message) == Unclassified
  {
    ClassifyPurchaseErrorSpec(message);
    ClassifyDirectPurchaseErrorSpec(message);
  }
}
