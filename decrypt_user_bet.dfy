/** The hook that decrypts a user's own encrypted bet (amount and side). The
    decryption service itself is outside the model: its readiness, its
    in-progress flag, its error and its results arrive as inputs to the effect
    handlers, and a call to `decrypt()` is counted. */
module DecryptUserBet {
  import opened Base

  /** `extractHandle`: drop a leading `0x`; `""` and a bare `"0x"` give `""`. */
  function ExtractHandle(encrypted: string): (handle: string)
    ensures encrypted == "" || encrypted == "0x" ==> handle == ""
    ensures encrypted != "0x" && |encrypted| >= 2 && encrypted[..2] == "0x" ==> handle == encrypted[2..]
    ensures !(|encrypted| >= 2 && encrypted[..2] == "0x") ==> handle == encrypted
  {
    if encrypted == "" || encrypted == "0x" then ""
    else if |encrypted| >= 2 && encrypted[..2] == "0x" then encrypted[2..]
    else encrypted
  }

  /** Putting the prefix back restores a prefixed input. */
  lemma ExtractHandleRestores(encrypted: string)
    requires |encrypted| > 2 && encrypted[..2] == "0x"
    ensures "0x" + ExtractHandle(encrypted) == encrypted
  {
    assert encrypted == encrypted[..2] + encrypted[2..];
  }

  /** The handle is empty exactly for `""` and `"0x"`, and is always a suffix of
      the input at most two characters shorter. */
  lemma ExtractHandleEmpty(encrypted: string)
    ensures ExtractHandle(encrypted) == "" <==> encrypted == "" || encrypted == "0x"
    ensures var h := ExtractHandle(encrypted);
            |encrypted| - 2 <= |h| <= |encrypted| && h == encrypted[|encrypted| - |h|..]
  {
    if |encrypted| == 2 && encrypted[..2] == "0x" {
      assert encrypted == "0x";
    }
  }

  /** The handle of an optional ciphertext, as the result handler computes it
      (`extractHandle(x || "")`). */
  function HandleOf(encrypted: Option<string>): string {
    ExtractHandle(encrypted.GetOr(""))
  }

  datatype Request = Request(handle: string, contractAddress: string)

  /** The `requests` memo: the amount and side handles, both against the bet
      contract, or nothing when any input is missing or yields no handle. */
  function BuildRequests(enabled: bool, contractAddress: Option<string>,
                         encryptedAmount: Option<string>, encryptedSide: Option<string>): (r: Option<seq<Request>>)
    ensures r.Some? <==> enabled && NonEmpty(contractAddress) && HandleOf(encryptedAmount) != "" && HandleOf(encryptedSide) != ""
    ensures r.Some? ==> r.value == [Request(HandleOf(encryptedAmount), contractAddress.value),
                                    Request(HandleOf(encryptedSide), contractAddress.value)]
  {
    if !enabled || !NonEmpty(contractAddress) || !NonEmpty(encryptedAmount) || !NonEmpty(encryptedSide) then None
    else
      var amountHandle := ExtractHandle(encryptedAmount.value);
      var sideHandle := ExtractHandle(encryptedSide.value);
      if amountHandle == "" || sideHandle == "" then None
      else Some([Request(amountHandle, contractAddress.value), Request(sideHandle, contractAddress.value)])
  }

  /** Requests exist exactly when the hook is enabled, the contract address is
      known and neither ciphertext is missing, empty or a bare `0x`. */
  lemma BuildRequestsWhen(enabled: bool, contractAddress: Option<string>,
                          encryptedAmount: Option<string>, encryptedSide: Option<string>)
    ensures BuildRequests(enabled, contractAddress, encryptedAmount, encryptedSide).Some? <==>
              enabled && NonEmpty(contractAddress)
              && encryptedAmount.Some? && encryptedAmount.value != "" && encryptedAmount.value != "0x"
              && encryptedSide.Some? && encryptedSide.value != "" && encryptedSide.value != "0x"
  {
    HandleOfEmpty(encryptedAmount);
    HandleOfEmpty(encryptedSide);
  }

  lemma HandleOfEmpty(encrypted: Option<string>)
    ensures HandleOf(encrypted) == "" <==> !(encrypted.Some? && encrypted.value != "" && encrypted.value != "0x")
  {
    ExtractHandleEmpty(encrypted.GetOr(""));
  }

  // ---------------------------------------------------------------------------
  // Decrypted values and JavaScript truthiness.
  // ---------------------------------------------------------------------------

  /** A clear value the service returns: a bigint or a boolean. */
  datatype ClearValue = Int(n: int) | Bool(b: bool)

  predicate Truthy(v: ClearValue) {
    match v
    case Int(n) => n != 0
    case Bool(b) => b
  }

  /** `typeof v === "bigint" ? v : BigInt(v)`. */
  function AsBigInt(v: ClearValue): int {
    match v
    case Int(n) => n
    case Bool(b) => if b then 1 else 0
  }

  /** `typeof v === "boolean" ? v : Boolean(v)`. */
  function AsBoolean(v: ClearValue): bool {
    match v
    case Int(n) => n != 0
    case Bool(b) => b
  }

  /** The decrypted amount after the result handler: replaced only when the
      handle is non-empty and its result is present and truthy. */
  function NextAmount(current: Option<int>, results: map<string, ClearValue>, handle: string): (r: Option<int>)
    ensures r != current ==> handle != "" && handle in results && r == Some(AsBigInt(results[handle]))
    ensures handle != "" && handle in results && Truthy(results[handle]) ==> r == Some(AsBigInt(results[handle]))
    ensures r == current || (r.Some? && r.value != 0)
  {
    if handle != "" && handle in results && Truthy(results[handle]) then Some(AsBigInt(results[handle])) else current
  }

  /** The decrypted side after the result handler, on the same condition. */
  function NextSide(current: Option<bool>, results: map<string, ClearValue>, handle: string): (r: Option<bool>)
    ensures r != current ==> handle != "" && handle in results && r == Some(AsBoolean(results[handle]))
    ensures handle != "" && handle in results && Truthy(results[handle]) ==> r == Some(AsBoolean(results[handle]))
    ensures r == current || r == Some(true)
  {
    if handle != "" && handle in results && Truthy(results[handle]) then Some(AsBoolean(results[handle])) else current
  }

  /** The trigger condition as written, with JavaScript truthiness:
      `!decryptedAmount` also holds for `0n`, `!decryptedSide` for `false`. */
  predicate ShouldTrigger(canDecrypt: bool, enabled: bool, isDecrypting: bool,
                          amount: Option<int>, side: Option<bool>) {
    canDecrypt && enabled && !isDecrypting
    && (amount.None? || amount.value == 0)
    && (side.None? || !side.value)
  }

  /** Values the result handler can produce: never `0n`, never `false`. */
  predicate Reachable(amount: Option<int>, side: Option<bool>) {
    amount != Some(0) && side != Some(false)
  }

  /** On reachable values the truthiness test is the same as "neither value
      has been set"; it would differ for a stored `0n` or `false`. */
  lemma ShouldTriggerOnReachable(canDecrypt: bool, enabled: bool, isDecrypting: bool,
                                 amount: Option<int>, side: Option<bool>)
    requires Reachable(amount, side)
    ensures ShouldTrigger(canDecrypt, enabled, isDecrypting, amount, side) <==>
              canDecrypt && enabled && !isDecrypting && amount.None? && side.None?
  {
  }

  /** The result handler keeps values reachable. */
  lemma NextKeepsReachable(amount: Option<int>, side: Option<bool>, results: map<string, ClearValue>,
                           amountHandle: string, sideHandle: string)
    requires Reachable(amount, side)
    ensures Reachable(NextAmount(amount, results, amountHandle), NextSide(side, results, sideHandle))
  {
  }

  /** A decrypted side of `false` is never stored: a bet on the `false` side
      keeps its side unknown, since its clear value is falsy. */
  lemma FalseSideSkipped(side: Option<bool>, handle: string)
    requires handle != ""
    ensures NextSide(side, map[handle := Bool(false)], handle) == side
    ensures NextSide(side, map[handle := Int(0)], handle) == side
  {
  }

  /** The side update with a presence test in place of the truthiness test:
      a present result is stored whatever its value. */
  function NextSidePresent(current: Option<bool>, results: map<string, ClearValue>, handle: string): (r: Option<bool>)
    ensures handle != "" && handle in results ==> r == Some(AsBoolean(results[handle]))
    ensures !(handle != "" && handle in results) ==> r == current
  {
    if handle != "" && handle in results then Some(AsBoolean(results[handle])) else current
  }

  /** With the presence test, a decrypted side of either value is stored, and
      the result agrees with the truthiness test whenever the side is `true`. */
  lemma NextSidePresentStoresBoth(current: Option<bool>, handle: string, b: bool)
    requires handle != ""
    ensures NextSidePresent(current, map[handle := Bool(b)], handle) == Some(b)
    ensures b ==> NextSidePresent(current, map[handle := Bool(b)], handle) == NextSide(current, map[handle := Bool(b)], handle)
  {
  }

  // ---------------------------------------------------------------------------
  // The hook's state and its effects.
  // ---------------------------------------------------------------------------

  class DecryptState {
    var decryptedAmount: Option<int>
    var decryptedSide: Option<bool>
    var isDecrypting: bool
    var error: Option<string>
    /** How many times `decrypt()` has been called. */
    var decryptCalls: nat

    ghost predicate Valid()
      reads this
    {
      Reachable(decryptedAmount, decryptedSide)
    }

    constructor ()
      ensures Valid()
      ensures decryptedAmount.None? && decryptedSide.None? && !isDecrypting && error.None? && decryptCalls == 0
    {
      decryptedAmount, decryptedSide := None, None;
      isDecrypting, error, decryptCalls := false, None, 0;
    }

    /** The trigger effect: start one decryption when ready and idle and
        nothing has been decrypted yet. */
    method TriggerEffect(canDecrypt: bool, enabled: bool)
      requires Valid()
      modifies this
      ensures Valid()
      ensures var fire := canDecrypt && enabled && !old(isDecrypting)
                          && old(decryptedAmount).None? && old(decryptedSide).None?;
              && (fire ==> isDecrypting && decryptCalls == old(decryptCalls) + 1)
              && (!fire ==> isDecrypting == old(isDecrypting) && decryptCalls == old(decryptCalls))
      ensures decryptedAmount == old(decryptedAmount) && decryptedSide == old(decryptedSide) && error == old(error)
    {
      ShouldTriggerOnReachable(canDecrypt, enabled, isDecrypting, decryptedAmount, decryptedSide);
      if ShouldTrigger(canDecrypt, enabled, isDecrypting, decryptedAmount, decryptedSide) {
        isDecrypting := true;
        decryptCalls := decryptCalls + 1;
      }
    }

    /** Mirror the service's in-progress flag. */
    method SyncDecrypting(hookIsDecrypting: bool)
      requires Valid()
      modifies this
      ensures Valid()
      ensures isDecrypting == hookIsDecrypting
      ensures decryptedAmount == old(decryptedAmount) && decryptedSide == old(decryptedSide)
      ensures error == old(error) && decryptCalls == old(decryptCalls)
    {
      isDecrypting := hookIsDecrypting;
    }

    /** Copy a service error; an absent (or empty) error leaves the old one. */
    method ErrorEffect(hookError: Option<string>)
      requires Valid()
      modifies this
      ensures Valid()
      ensures error == if NonEmpty(hookError) then hookError else old(error)
      ensures old(error).Some? ==> error.Some?
      ensures decryptedAmount == old(decryptedAmount) && decryptedSide == old(decryptedSide)
      ensures isDecrypting == old(isDecrypting) && decryptCalls == old(decryptCalls)
    {
      if NonEmpty(hookError) {
        error := hookError;
      }
    }

    /** The result effect: store the amount and side found under their handles. */
    method ResultsEffect(results: Option<map<string, ClearValue>>,
                         encryptedAmount: Option<string>, encryptedSide: Option<string>)
      requires Valid()
      modifies this
      ensures Valid()
      ensures results.None? || results.value == map[] ==>
                decryptedAmount == old(decryptedAmount) && decryptedSide == old(decryptedSide)
      ensures results.Some? ==>
                decryptedAmount == NextAmount(old(decryptedAmount), results.value, HandleOf(encryptedAmount))
                && decryptedSide == NextSide(old(decryptedSide), results.value, HandleOf(encryptedSide))
      ensures decryptedSide == old(decryptedSide) || decryptedSide == Some(true)
      ensures decryptedAmount == old(decryptedAmount) || (decryptedAmount.Some? && decryptedAmount.value != 0)
      ensures isDecrypting == old(isDecrypting) && error == old(error) && decryptCalls == old(decryptCalls)
    {
      if results.None? || |results.value| == 0 {
        return;
      }
      var r := results.value;
      var amountHandle := HandleOf(encryptedAmount);
      var sideHandle := HandleOf(encryptedSide);
      if amountHandle != "" && amountHandle in r && Truthy(r[amountHandle]) {
        decryptedAmount := Some(AsBigInt(r[amountHandle]));
      }
      if sideHandle != "" && sideHandle in r && Truthy(r[sideHandle]) {
        decryptedSide := Some(AsBoolean(r[sideHandle]));
      }
    }
  }
}
