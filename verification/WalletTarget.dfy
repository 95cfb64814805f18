/** internal/persistence/wallet_target.go: the canonical form of an EVM address. */
module WalletTarget {
  import opened Wrappers
  import opened Text

  predicate IsLowerHex(c: char) {
    '0' <= c <= '9' || 'a' <= c <= 'f'
  }

  predicate IsHex(c: char) {
    IsLowerHex(c) || 'A' <= c <= 'F'
  }

  /** `0x` and forty lower-case hexadecimal digits. */
  predicate IsNormalWallet(a: string) {
    |a| == 42 && a[0] == '0' && a[1] == 'x' && forall i :: 2 <= i < 42 ==> IsLowerHex(a[i])
  }

  /** The digits left of an address once blanks and an optional `0x` or `0X` are gone. */
  function HexPart(address: string): (r: string) {
    var t := Trim(address);
    if HasPrefix(t, "0x") || HasPrefix(t, "0X") then t[2..] else t
  }

  /** An address is accepted exactly when its hex part has forty hex digits of either case. */
  function NormalizeWallet(address: string): (r: Option<string>)
    ensures r.Some? ==> IsNormalWallet(r.value)
  {
    var h := HexPart(address);
    if |h| == 40 && forall i :: 0 <= i < 40 ==> IsHex(h[i]) then Some("0x" + Lower(h)) else None
  }

  /** The canonical form, or nothing. */
  function CanonicalWallet(address: string): (r: string) {
    match NormalizeWallet(address)
    case Some(a) => a
    case None => ""
  }

  /** The steps of the source, which lower-cases first and checks afterwards. */
  method NormalizeWalletTargetAddress(address: string) returns (r: Option<string>)
    ensures r == NormalizeWallet(address)
  {
    hide Trim;
    var a := Trim(address);
    if a == "" {
      return None;
    }
    if HasPrefix(a, "0X") {
      a := "0x" + a[2..];
    }
    if !HasPrefix(a, "0x") {
      a := "0x" + a;
    }
    assert a == "0x" + HexPart(address);
    a := Lower(a);
    assert a == "0x" + Lower(HexPart(address));
    AssembledAddress(address, a);
    if |a| != 42 || !HasPrefix(a, "0x") {
      return None;
    }
    var ok := AllLowerHex(a[2..]);
    return if ok then Some(a) else None;
  }

  method AllLowerHex(digits: string) returns (ok: bool)
    ensures ok <==> forall i :: 0 <= i < |digits| ==> IsLowerHex(digits[i])
  {
    var i := 0;
    while i < |digits|
      invariant 0 <= i <= |digits|
      invariant forall k :: 0 <= k < i ==> IsLowerHex(digits[k])
    {
      var c := digits[i];
      if (c < '0' || c > '9') && (c < 'a' || c > 'f') {
        return false;
      }
      i := i + 1;
    }
    return true;
  }

  /** What the prefix handling and lower-casing build out of the hex part. */
  lemma AssembledAddress(address: string, a: string)
    requires a == "0x" + Lower(HexPart(address))
    ensures |a| == 42 <==> |HexPart(address)| == 40
    ensures HasPrefix(a, "0x")
    ensures (forall i :: 0 <= i < |a[2..]| ==> IsLowerHex(a[2..][i])) <==>
            (forall i :: 0 <= i < |HexPart(address)| ==> IsHex(HexPart(address)[i]))
  {
    var h := HexPart(address);
    assert a[2..] == Lower(h);
    if forall i :: 0 <= i < |h| ==> IsLowerHex(Lower(h)[i]) {
      forall i | 0 <= i < |h| ensures IsHex(h[i]) {
        assert IsLowerHex(Lower(h)[i]);
      }
    }
  }

  /** The canonical form is a fixed point, so normalizing twice is normalizing once. */
  lemma NormalWalletFixed(w: string)
    requires IsNormalWallet(w)
    ensures NormalizeWallet(w) == Some(w)
    ensures Trim(w) == w && Lower(w) == w && '\n' !in w
  {
    hide Trim, Lower;
    assert Trimmed(w);
    assert w[..2] == "0x";
    assert w == "0x" + w[2..];
    assert Lower(w[2..]) == w[2..];
  }

  /** walletAddressesEqual and addressesEqual: compare canonical forms, or fold case when one side is not an address. */
  predicate SameWallet(a: string, b: string) {
    var na := NormalizeWallet(a);
    var nb := NormalizeWallet(b);
    if na.None? || nb.None? then EqualFold(Trim(a), Trim(b)) else na.value == nb.value
  }

  /** An address, spelled out: forty hex digits, perhaps after 0x or 0X, and its canonical form. */
  lemma NormalizeWalletExact(address: string, h: string)
    requires |h| == 40 && forall i :: 0 <= i < 40 ==> '0' <= h[i] <= '9' || 'a' <= h[i] <= 'f' || 'A' <= h[i] <= 'F'
    ensures Trim(address) == h || Trim(address) == "0x" + h || Trim(address) == "0X" + h ==>
              NormalizeWallet(address) == Some("0x" + Lower(h))
  {
    hide Trim;
    var t := Trim(address);
    if t == h {
      assert h[1] != 'x' && h[1] != 'X';
      assert t[..2][1] == h[1];
    } else if t == "0x" + h {
      assert t[..2] == "0x" && t[2..] == h;
    } else if t == "0X" + h {
      assert t[..2] == "0X" && t[2..] == h;
    }
  }

  /** And nothing else is one. */
  lemma AddressHasForm(address: string) returns (h: string)
    requires NormalizeWallet(address).Some?
    ensures |h| == 40 && forall i :: 0 <= i < 40 ==> '0' <= h[i] <= '9' || 'a' <= h[i] <= 'f' || 'A' <= h[i] <= 'F'
    ensures Trim(address) == h || Trim(address) == "0x" + h || Trim(address) == "0X" + h
  {
    hide Trim;
    var t := Trim(address);
    h := HexPart(address);
    if h != t {
      assert t == t[..2] + t[2..];
    }
  }

  /** Two addresses are the same when their canonical forms are; other texts when they fold to the same. */
  lemma SameWalletExact(a: string, b: string)
    ensures NormalizeWallet(a).Some? && NormalizeWallet(b).Some? ==>
              (SameWallet(a, b) <==> NormalizeWallet(a) == NormalizeWallet(b))
    ensures NormalizeWallet(a).None? || NormalizeWallet(b).None? ==>
              (SameWallet(a, b) <==> Lower(Trim(a)) == Lower(Trim(b)))
  {
    hide Trim, NormalizeWallet, Lower;
  }

  /** Against a canonical wallet the folding fallback never matches: equality is equality of canonical forms. */
  lemma SameWalletAsNormal(a: string, w: string)
    requires IsNormalWallet(w)
    ensures SameWallet(a, w) <==> NormalizeWallet(a) == Some(w)
  {
    hide Trim, NormalizeWallet;
    NormalWalletFixed(w);
    if NormalizeWallet(a).Some? {
      assert SameWallet(a, w) <==> NormalizeWallet(a).value == w;
    } else {
      assert SameWallet(a, w) <==> Lower(Trim(a)) == w;
      NotFolded(a, w);
    }
  }

  lemma NotFolded(a: string, w: string)
    requires IsNormalWallet(w)
    requires NormalizeWallet(a).None?
    ensures Lower(Trim(a)) != w
  {
    if Lower(Trim(a)) == w {
      FoldedToNormal(a, w);
      assert false;
    }
  }

  lemma FoldedToNormal(a: string, w: string)
    requires IsNormalWallet(w)
    requires Lower(Trim(a)) == w
    ensures NormalizeWallet(a) == Some(w)
  {
    hide Trim;
    var t := Trim(a);
    assert forall i :: 0 <= i < |w| ==> LowerChar(t[i]) == w[i];
    assert t[1] == 'x' || t[1] == 'X';
    assert t[..2] == [t[0], t[1]];
    var h := t[2..];
    assert HexPart(a) == h;
    assert forall i :: 0 <= i < 40 ==> h[i] == t[i + 2] && w[i + 2] == LowerChar(h[i]);
    assert Lower(h) == w[2..];
    assert w == "0x" + w[2..];
  }
}
