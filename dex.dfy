/** The pair record of dex/pair.go and the `GetPair` operation that
    dex/uniswap.go and dex/pancake_swap.go both implement, with identical
    bodies. The calls `GetPair` makes to the node are inputs here
    (`PairAnswers`); what is left is the normalisation of the answers into a
    record. */
module Dex {
  import opened Wrappers
  import opened DexExchange

  /** One row of the dataset (dex/pair.go). */
  datatype Pair = Pair(
    token0: string,
    token1: string,
    name: string,
    address: string,
    symbol: string,
    decimals: int,
    chainId: int)

  datatype Family = Uniswap | PancakeSwap

  /** A `*Uniswap` or `*PancakeSwap` receiver: which factory contract it asks
      and the chain id it stamps on every record. The RPC client is part of
      the node, not of the model. */
  datatype Exchange = Exchange(family: Family, factory: Address, chainId: int)

  type Uint8 = x: int | 0 <= x < 256

  /** What the node answers to the calls `GetPair(n)` makes for one index.
      `None` is a call that returned an error. */
  datatype PairAnswers = PairAnswers(
    pairAddress: Result<Address>,    // factory.AllPairs(n)
    pairSymbol: Option<string>,      // pair.Symbol()
    pairName: Option<string>,        // pair.Name()
    pairDecimals: Option<Uint8>,     // pair.Decimals()
    token0: Option<Address>,         // pair.Token0()
    token1: Option<Address>,         // pair.Token1()
    token0Symbol: Option<string>,    // ERC-20 symbol() of token0, asked only if token0 is not zero
    token1Symbol: Option<string>)    // ERC-20 symbol() of token1, asked only if token1 is not zero

  /** The sentinel symbol for a token without a usable symbol. */
  const Unknown: string := "UNK"

  /** The longest symbol shown in a pair name. */
  const MaxSymbolLength: nat := 13

  // ---------------------------------------------------------------------------
  // Text helpers

  function LowerChar(c: char): char {
    if 'A' <= c <= 'Z' then (c as int + 32) as char else c
  }

  /** `strings.ToLower` on the ASCII text of an address. */
  function Lower(s: string): (r: string)
    ensures |r| == |s|
    ensures forall i :: 0 <= i < |s| ==> r[i] == LowerChar(s[i])
  {
    if s == [] then [] else [LowerChar(s[0])] + Lower(s[1..])
  }

  /** Lowercasing twice is lowercasing once. */
  lemma LowerIdempotent(s: string)
    ensures Lower(Lower(s)) == Lower(s)
  {
    assert forall i :: 0 <= i < |s| ==> Lower(Lower(s))[i] == Lower(s)[i];
  }

  /** A lowercased address has no upper-case ASCII letter left. */
  lemma LowerHasNoUpper(s: string)
    ensures forall i :: 0 <= i < |s| ==> !('A' <= Lower(s)[i] <= 'Z')
  {
  }

  /** Text without upper-case ASCII letters is its own lowercase form; the zero
      address (digits and `x` only) is one. */
  lemma LowerFixesLowercase(s: string)
    requires forall i :: 0 <= i < |s| ==> !('A' <= s[i] <= 'Z')
    ensures Lower(s) == s
  {
    assert forall i :: 0 <= i < |s| ==> Lower(s)[i] == s[i];
  }

  lemma LowerZeroAddress()
    ensures Lower(ZeroAddress) == ZeroAddress
  {
    forall i | 0 <= i < |ZeroAddress| ensures !('A' <= ZeroAddress[i] <= 'Z') {
      assert ZeroAddress[i] == '0' || ZeroAddress[i] == 'x';
    }
    LowerFixesLowercase(ZeroAddress);
  }

  /** Go's `s[:k]` when the string is longer than `k`, `s` otherwise: the
      longest prefix of `s` of length at most `k`. */
  function Truncate(s: string, k: nat): (r: string)
    ensures |r| <= k && r <= s
    ensures |s| <= k ==> r == s
    ensures |s| > k ==> |r| == k
  {
    if |s| > k then s[..k] else s
  }

  // ---------------------------------------------------------------------------
  // Normalisation steps

  /** The symbol a token gets before truncation (dex/uniswap.go:50-63): the
      zero address is never asked and gets `UNK`; otherwise the fetched symbol
      if the call succeeded and the symbol passes the whitelist, `UNK` if not. */
  function TokenSymbol(token: Address, fetched: Option<string>): (s: string)
    ensures MatchesAllowed(s)
    ensures token == ZeroAddress ==> s == Unknown
    ensures s == Unknown || (token != ZeroAddress && fetched == Some(s))
    ensures token != ZeroAddress && fetched.Some? && MatchesAllowed(fetched.value) ==> s == fetched.value
    ensures token != ZeroAddress && (fetched.None? || !MatchesAllowed(fetched.value)) ==> s == Unknown
  {
    if token == ZeroAddress then Unknown
    else if fetched.Some? && MatchesAllowed(fetched.value) then fetched.value
    else Unknown
  }

  /** The two symbols shown in the pair name, in the order dex/uniswap.go:64-69
      assigns them: token0's symbol is cut to 13 characters, and then, if
      token1's symbol is longer than 13, token0's is overwritten by the first
      13 characters of token1's, while token1's own symbol stays uncut. */
  function ShownSymbols(symbol0: string, symbol1: string): (r: (string, string))
    ensures |r.0| <= MaxSymbolLength
    ensures r.1 == symbol1
    ensures |symbol1| <= MaxSymbolLength ==> r.0 == Truncate(symbol0, MaxSymbolLength)
    ensures |symbol1| > MaxSymbolLength ==> r.0 == symbol1[..MaxSymbolLength]
  {
    var shown0 := if |symbol0| > MaxSymbolLength then symbol0[..MaxSymbolLength] else symbol0;
    var shown0' := if |symbol1| > MaxSymbolLength then symbol1[..MaxSymbolLength] else shown0;
    (shown0', symbol1)
  }

  /** The truncation the two `if`s of dex/uniswap.go:64-69 evidently mean:
      each symbol cut to its own first 13 characters. */
  function ShownSymbolsIntended(symbol0: string, symbol1: string): (r: (string, string))
    ensures |r.0| <= MaxSymbolLength && |r.1| <= MaxSymbolLength
    ensures r.0 <= symbol0 && r.1 <= symbol1
    ensures |symbol0| <= MaxSymbolLength ==> r.0 == symbol0
    ensures |symbol1| <= MaxSymbolLength ==> r.1 == symbol1
  {
    (Truncate(symbol0, MaxSymbolLength), Truncate(symbol1, MaxSymbolLength))
  }

  /** The code as written agrees with the intended truncation exactly when
      token1's symbol is short; a long one replaces token0's symbol and is
      itself shown uncut. */
  lemma ShownSymbolsAgreeIff(symbol0: string, symbol1: string)
    ensures ShownSymbols(symbol0, symbol1) == ShownSymbolsIntended(symbol0, symbol1) <==>
      |symbol1| <= MaxSymbolLength
  {
    if |symbol1| > MaxSymbolLength {
      assert |ShownSymbols(symbol0, symbol1).1| != |ShownSymbolsIntended(symbol0, symbol1).1|;
    }
  }

  /** A pair of WETH and a 16-character token1 symbol is named after token1
      twice: `"… - ABCDEFGHIJKLM/ABCDEFGHIJKLMNOP"`. */
  lemma LongToken1SymbolOverwritesToken0()
    ensures ShownSymbols("WETH", "ABCDEFGHIJKLMNOP") == ("ABCDEFGHIJKLM", "ABCDEFGHIJKLMNOP")
    ensures ShownSymbolsIntended("WETH", "ABCDEFGHIJKLMNOP") == ("WETH", "ABCDEFGHIJKLM")
  {
    assert "ABCDEFGHIJKLMNOP"[..MaxSymbolLength] == "ABCDEFGHIJKLM";
  }

  /** `fmt.Sprintf("%s - %s/%s", pairName, symbol0, symbol1)`. */
  function PairName(pairName: string, symbol0: string, symbol1: string): (name: string)
    ensures |name| == |pairName| + |symbol0| + |symbol1| + 4
    ensures name[..|pairName| + 3] == pairName + " - "
    ensures name[|pairName| + 3..|pairName| + 3 + |symbol0|] == symbol0
    ensures name[|name| - |symbol1| - 1..] == "/" + symbol1
  {
    pairName + " - " + symbol0 + "/" + symbol1
  }

  /** The record `GetPair(n)` returns for the node's answers (dex/uniswap.go:33-81,
      dex/pancake_swap.go:34-83): an error exactly when the factory lookup
      fails; every other failed call leaves Go's zero value (empty string,
      0, the zero address) in its place. */
  function PairRecord(ex: Exchange, a: PairAnswers): (r: Result<Pair>)
    ensures r.Err? <==> a.pairAddress.Err?
    ensures r.Err? ==> r.error == a.pairAddress.error
    ensures r.Ok? ==> r.value.chainId == ex.chainId
    ensures r.Ok? ==> r.value.address == Lower(a.pairAddress.value)
    ensures r.Ok? ==> r.value.token0 == Lower(a.token0.GetOr(ZeroAddress))
    ensures r.Ok? ==> r.value.token1 == Lower(a.token1.GetOr(ZeroAddress))
    ensures r.Ok? ==> r.value.symbol == a.pairSymbol.GetOr("")
    ensures r.Ok? ==> r.value.decimals == a.pairDecimals.GetOr(0)
  {
    match a.pairAddress
    case Err(e) => Err(e)
    case Ok(pairAddress) =>
      var token0 := a.token0.GetOr(ZeroAddress);
      var token1 := a.token1.GetOr(ZeroAddress);
      var shown := ShownSymbols(TokenSymbol(token0, a.token0Symbol), TokenSymbol(token1, a.token1Symbol));
      Ok(Pair(
        Lower(token0),
        Lower(token1),
        PairName(a.pairName.GetOr(""), shown.0, shown.1),
        Lower(pairAddress),
        a.pairSymbol.GetOr(""),
        a.pairDecimals.GetOr(0),
        ex.chainId))
  }

  /** `Uniswap.GetPair` / `PancakeSwap.GetPair`, statement by statement: the
      two symbol locals start as `UNK` and are reassigned in the source's order. */
  method GetPair(ex: Exchange, a: PairAnswers) returns (r: Result<Pair>)
    ensures r == PairRecord(ex, a)
  {
    if a.pairAddress.Err? {
      return Err(a.pairAddress.error);
    }
    var pairAddress := a.pairAddress.value;
    var pairSymbol := a.pairSymbol.GetOr("");
    var pairName := a.pairName.GetOr("");
    var pairDecimals := a.pairDecimals.GetOr(0);
    var token0 := a.token0.GetOr(ZeroAddress);
    var token1 := a.token1.GetOr(ZeroAddress);

    var token0Symbol := Unknown;
    var token1Symbol := Unknown;
    if token0 != ZeroAddress {
      token0Symbol := a.token0Symbol.GetOr("");
      if a.token0Symbol.None? || !MatchesAllowed(token0Symbol) {
        token0Symbol := Unknown;
      }
    }
    if token1 != ZeroAddress {
      token1Symbol := a.token1Symbol.GetOr("");
      if a.token1Symbol.None? || !MatchesAllowed(token1Symbol) {
        token1Symbol := Unknown;
      }
    }
    if |token0Symbol| > MaxSymbolLength {
      token0Symbol := token0Symbol[..MaxSymbolLength];
    }
    if |token1Symbol| > MaxSymbolLength {
      token0Symbol := token1Symbol[..MaxSymbolLength];
    }

    r := Ok(Pair(
      Lower(token0),
      Lower(token1),
      pairName + " - " + token0Symbol + "/" + token1Symbol,
      Lower(pairAddress),
      pairSymbol,
      pairDecimals,
      ex.chainId));
  }

  // ---------------------------------------------------------------------------
  // Properties of the record

  /** The name of a fetched record is the pair name, " - ", a shown token0
      symbol of at most 13 characters, "/" and token1's whitelisted symbol,
      which is not cut. Both shown symbols pass the whitelist. */
  lemma NameShape(ex: Exchange, a: PairAnswers)
    requires a.pairAddress.Ok?
    ensures var t1 := TokenSymbol(a.token1.GetOr(ZeroAddress), a.token1Symbol);
      exists shown0 :: |shown0| <= MaxSymbolLength && MatchesAllowed(shown0) &&
        PairRecord(ex, a).value.name == PairName(a.pairName.GetOr(""), shown0, t1)
  {
    var t0 := TokenSymbol(a.token0.GetOr(ZeroAddress), a.token0Symbol);
    var t1 := TokenSymbol(a.token1.GetOr(ZeroAddress), a.token1Symbol);
    var shown := ShownSymbols(t0, t1);
    if |t1| > MaxSymbolLength {
      PrefixAllowed(t1, MaxSymbolLength);
    } else {
      PrefixAllowed(t0, MaxSymbolLength);
    }
    assert MatchesAllowed(shown.0) && |shown.0| <= MaxSymbolLength;
    assert PairRecord(ex, a).value.name == PairName(a.pairName.GetOr(""), shown.0, shown.1);
  }

  /** A non-empty prefix of a whitelisted string is whitelisted. */
  lemma PrefixAllowed(s: string, k: nat)
    requires MatchesAllowed(s) && 0 < k
    ensures MatchesAllowed(Truncate(s, k))
  {
    MatchesAllowedIff(s);
    MatchesAllowedIff(Truncate(s, k));
  }

  /** A zero-address token (or one whose address call failed, which leaves the
      zero address) shows `UNK`, unless, for token0, token1's symbol is longer
      than 13 characters and overwrites it. */
  lemma ZeroTokenShowsUnknown(ex: Exchange, a: PairAnswers)
    requires a.pairAddress.Ok?
    requires a.token0.GetOr(ZeroAddress) == ZeroAddress
    ensures var t1 := TokenSymbol(a.token1.GetOr(ZeroAddress), a.token1Symbol);
      |t1| <= MaxSymbolLength ==>
        PairRecord(ex, a).value.name == PairName(a.pairName.GetOr(""), Unknown, t1)
    ensures PairRecord(ex, a).value.token0 == ZeroAddress
  {
    LowerZeroAddress();
    var pn := a.pairName.GetOr("");
    var t0 := TokenSymbol(a.token0.GetOr(ZeroAddress), a.token0Symbol);
    var t1 := TokenSymbol(a.token1.GetOr(ZeroAddress), a.token1Symbol);
    assert t0 == Unknown;
    var shown := ShownSymbols(t0, t1);
    assert PairRecord(ex, a).value.name == PairName(pn, shown.0, shown.1);
    if |t1| <= MaxSymbolLength {
      assert shown == (Unknown, t1);
    }
  }

  /** The name of a fetched record in terms of the two symbols. */
  lemma RecordName(ex: Exchange, a: PairAnswers)
    requires a.pairAddress.Ok?
    ensures var t0 := TokenSymbol(a.token0.GetOr(ZeroAddress), a.token0Symbol);
      var t1 := TokenSymbol(a.token1.GetOr(ZeroAddress), a.token1Symbol);
      PairRecord(ex, a).value.name == PairName(a.pairName.GetOr(""), ShownSymbols(t0, t1).0, t1)
  {
  }

  /** A token whose symbol call fails, or whose symbol fails the whitelist,
      shows `UNK` (dex/pancake_swap.go:60-65); here for token1, whose shown
      symbol is never overwritten. */
  lemma RejectedSymbolShowsUnknown(ex: Exchange, a: PairAnswers)
    requires a.pairAddress.Ok?
    requires a.token1Symbol.None? || !MatchesAllowed(a.token1Symbol.value)
    ensures exists shown0 :: PairRecord(ex, a).value.name == PairName(a.pairName.GetOr(""), shown0, Unknown)
  {
    RecordName(ex, a);
    var t0 := TokenSymbol(a.token0.GetOr(ZeroAddress), a.token0Symbol);
    var t1 := TokenSymbol(a.token1.GetOr(ZeroAddress), a.token1Symbol);
    assert t1 == Unknown;
    var shown0 := ShownSymbols(t0, t1).0;
    assert PairRecord(ex, a).value.name == PairName(a.pairName.GetOr(""), shown0, Unknown);
  }

  /** With both symbols short (and accepted), the name shows each token's own
      fetched symbol in full. */
  lemma ShortSymbolsShownInFull(ex: Exchange, a: PairAnswers, s0: string, s1: string)
    requires a.pairAddress.Ok?
    requires a.token0.Some? && a.token0.value != ZeroAddress && a.token0Symbol == Some(s0)
    requires a.token1.Some? && a.token1.value != ZeroAddress && a.token1Symbol == Some(s1)
    requires MatchesAllowed(s0) && MatchesAllowed(s1)
    requires |s0| <= MaxSymbolLength && |s1| <= MaxSymbolLength
    ensures PairRecord(ex, a).value.name == a.pairName.GetOr("") + " - " + s0 + "/" + s1
  {
  }

  /** A long token0 symbol is cut to its first 13 characters when token1's is short. */
  lemma LongToken0SymbolCut(ex: Exchange, a: PairAnswers, s0: string, s1: string)
    requires a.pairAddress.Ok?
    requires a.token0.Some? && a.token0.value != ZeroAddress && a.token0Symbol == Some(s0)
    requires a.token1.Some? && a.token1.value != ZeroAddress && a.token1Symbol == Some(s1)
    requires MatchesAllowed(s0) && MatchesAllowed(s1)
    requires |s0| > MaxSymbolLength && |s1| <= MaxSymbolLength
    ensures PairRecord(ex, a).value.name == a.pairName.GetOr("") + " - " + s0[..13] + "/" + s1
  {
  }
}
