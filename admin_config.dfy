/** Who may use the admin pages: a fixed list of wallet addresses, compared
    without regard to letter case. */
module AdminConfig {
  import opened Base

  /** The production admin wallet. */
  const ProductionAdmin: string := "0x6C8c3FC2717cE887B41E85141B7ACd7e0a197946"
  const AdminAddresses: seq<string> := [ProductionAdmin]

  /** `admins.some(admin => admin.toLowerCase() === address.toLowerCase())`. */
  function AnyMatches(admins: seq<string>, address: string): (r: bool)
    ensures r <==> exists k :: 0 <= k < |admins| && SameUpToCase(admins[k], address)
    decreases |admins|
  {
    if admins == [] then false
    else if SameUpToCase(admins[0], address) then true
    else
      var rest := AnyMatches(admins[1..], address);
      assert forall k :: 1 <= k < |admins| ==> admins[k] == admins[1..][k - 1];
      rest
  }

  /** `isAdmin`: a missing or empty address is never an admin. */
  function IsAdmin(address: Option<string>): (r: bool)
    ensures r <==> NonEmpty(address)
                   && exists k :: 0 <= k < |AdminAddresses| && SameUpToCase(AdminAddresses[k], address.value)
  {
    if !NonEmpty(address) then false else AnyMatches(AdminAddresses, address.value)
  }

  /** With the single listed wallet, an address is an admin exactly when it
      spells that wallet in any mix of cases. */
  lemma IsAdminIff(a: string)
    ensures IsAdmin(Some(a)) <==> SameUpToCase(a, ProductionAdmin)
  {
    if SameUpToCase(a, ProductionAdmin) {
      assert |a| == |ToLower(a)| == |ToLower(ProductionAdmin)| == |ProductionAdmin|;
      assert SameUpToCase(AdminAddresses[0], a);
    }
  }

  /** Two addresses that differ only in letter case get the same answer. */
  lemma IsAdminIgnoresCase(a: string, b: string)
    requires SameUpToCase(a, b)
    ensures IsAdmin(Some(a)) == IsAdmin(Some(b))
  {
    IsAdminIff(a);
    IsAdminIff(b);
  }

  lemma ToLowerIdempotent(s: string)
    ensures ToLower(ToLower(s)) == ToLower(s)
  {
    forall i | 0 <= i < |s|
      ensures ToLower(ToLower(s))[i] == ToLower(s)[i]
    {
      assert LowerChar(LowerChar(s[i])) == LowerChar(s[i]);
    }
  }

  /** The production wallet is recognised as checksummed, all lower case and
      all upper case. */
  lemma ProductionAdminAnyCase()
    ensures IsAdmin(Some(ProductionAdmin))
    ensures IsAdmin(Some(ToLower(ProductionAdmin)))
    ensures IsAdmin(Some(ToUpper(ProductionAdmin)))
  {
    IsAdminIff(ProductionAdmin);
    IsAdminIff(ToLower(ProductionAdmin));
    IsAdminIff(ToUpper(ProductionAdmin));
    ToLowerIdempotent(ProductionAdmin);
    ToUpperSameUpToCase(ProductionAdmin);
  }
}
