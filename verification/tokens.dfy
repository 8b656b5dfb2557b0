/**
 * The token registry: ERC-20 metadata for the tokens of known pools, cached
 * as CSV rows, with sequential ids and, per token, the ids of the pools
 * that trade it.
 */
module Tokens {
  import opened Eth
  import opened Wrappers
  import Text
  import Sorting
  import Pools

  datatype Token = Token(
    id: int,
    address: Address,
    name: string,
    symbol: string,
    decimals: nat,
    poolIds: seq<int>)

  /** What `get_token_info` reads from the chain. */
  datatype TokenInfo = TokenInfo(name: string, symbol: string, decimals: nat)

  /** The field values fit the Rust types (`i64` id, `u8` decimals). */
  predicate FitsRow(t: Token) {
    I64_MIN <= t.id <= I64_MAX && t.decimals <= U8_MAX
  }

  // ---------------------------------------------------------------------------
  // CSV rows
  // ---------------------------------------------------------------------------

  /**
   * `Token::from(StringRecord)`: columns id, address, name, symbol,
   * decimals; the pool list starts empty. `None` where the Rust code would
   * panic on a missing column or an unparsable field.
   */
  function TokenFromRecord(record: seq<string>): (r: Option<Token>)
    ensures r.Some? ==> |record| >= 5 && FitsRow(r.value) && r.value.poolIds == []
    ensures r.Some? ==> r.value.name == record[2] && r.value.symbol == record[3]
  {
    if |record| < 5 then None
    else
      var id := Text.ParseInteger(record[0], I64_MIN, I64_MAX);
      var address := Text.ParseAddress(record[1]);
      var decimals := Text.ParseInteger(record[4], 0, U8_MAX);
      if id.Some? && address.Some? && decimals.Some? then
        Some(Token(id.value, address.value, record[2], record[3], decimals.value, []))
      else None
  }

  /** `Token::cache_row`: the fields in the same column order, the address in `{:?}` form. */
  function CacheRow(t: Token): (row: seq<string>)
    ensures |row| == 5
  {
    [Text.FormatInt(t.id), Text.DebugHex(t.address), t.name, t.symbol, Text.FormatInt(t.decimals)]
  }

  /** Reading back a cached row gives the token that was written, without its pool list. */
  lemma TokenRowRoundTrip(t: Token)
    requires FitsRow(t)
    ensures TokenFromRecord(CacheRow(t)) == Some(t.(poolIds := []))
  {
    var row := CacheRow(t);
    assert row[0] == Text.FormatInt(t.id) && row[1] == Text.DebugHex(t.address);
    assert row[4] == Text.FormatInt(t.decimals);
    Text.ParseFormatInt(t.id, I64_MIN, I64_MAX);
    Text.ParseFormatInt(t.decimals, 0, U8_MAX);
    Text.ParseAddressOfDebug(t.address);
  }

  // ---------------------------------------------------------------------------
  // Reading the cache
  // ---------------------------------------------------------------------------

  predicate Parsable(rows: seq<seq<string>>) {
    forall i :: 0 <= i < |rows| ==> TokenFromRecord(rows[i]).Some?
  }

  /** The map after reading the cached rows: each row under its address, later rows winning. */
  function CacheMap(rows: seq<seq<string>>): map<Address, Token>
    requires Parsable(rows)
  {
    if rows == [] then map[]
    else
      var t := TokenFromRecord(rows[|rows| - 1]).value;
      CacheMap(rows[..|rows| - 1])[t.address := t]
  }

  lemma ParsablePrefix(rows: seq<seq<string>>, n: nat)
    requires Parsable(rows) && n <= |rows|
    ensures Parsable(rows[..n])
  {
    forall i | 0 <= i < n ensures TokenFromRecord(rows[..n][i]).Some? {
      assert rows[..n][i] == rows[i];
    }
  }

  /** Every cached token sits under its own address and has no pools yet. */
  lemma {:induction false} CacheMapValues(rows: seq<seq<string>>, a: Address)
    requires Parsable(rows)
    ensures a in CacheMap(rows) ==> CacheMap(rows)[a].address == a && CacheMap(rows)[a].poolIds == []
  {
    if rows != [] {
      ParsablePrefix(rows, |rows| - 1);
      CacheMapValues(rows[..|rows| - 1], a);
    }
  }

  /** The addresses of the cached rows, in file order. */
  function RowAddresses(rows: seq<seq<string>>): (r: seq<Address>)
    requires Parsable(rows)
    ensures |r| == |rows|
  {
    if rows == [] then []
    else
      ParsablePrefix(rows, |rows| - 1);
      RowAddresses(rows[..|rows| - 1]) + [TokenFromRecord(rows[|rows| - 1]).value.address]
  }

  /** The cached addresses are exactly the addresses of the rows. */
  lemma {:induction false} CacheMapKeys(rows: seq<seq<string>>, a: Address)
    requires Parsable(rows)
    ensures a in CacheMap(rows) <==> a in RowAddresses(rows)
  {
    if rows != [] {
      ParsablePrefix(rows, |rows| - 1);
      CacheMapKeys(rows[..|rows| - 1], a);
    }
  }

  /** The cache loop: insert every row under its address and count the rows. */
  method ReadCache(rows: seq<seq<string>>) returns (tokens: map<Address, Token>, tokenId: int)
    requires Parsable(rows)
    ensures tokens == CacheMap(rows) && tokenId == |rows|
  {
    tokens, tokenId := map[], 0;
    for i := 0 to |rows|
      invariant Parsable(rows[..i])
      invariant tokens == CacheMap(rows[..i]) && tokenId == i
    {
      assert rows[..i + 1][..i] == rows[..i];
      ParsablePrefix(rows, i + 1);
      var token := TokenFromRecord(rows[i]).value;
      tokens := tokens[token.address := token];
      tokenId := tokenId + 1;
    }
    assert rows[..|rows|] == rows;
  }

  // ---------------------------------------------------------------------------
  // Discovering new tokens
  // ---------------------------------------------------------------------------

  /** The pools recent enough to be scanned: id at least `prevPoolId - 50`. */
  predicate Recent(p: Pools.Pool, prevPoolId: int) {
    p.id >= prevPoolId - 50
  }

  /** The token addresses the discovery loop visits: token0 then token1 of each recent pool. */
  function Candidates(pools: seq<Pools.Pool>, prevPoolId: int): seq<Address> {
    if pools == [] then []
    else
      var p := pools[|pools| - 1];
      Candidates(pools[..|pools| - 1], prevPoolId)
      + (if Recent(p, prevPoolId) then [p.token0, p.token1] else [])
  }

  lemma {:induction false} CandidatesMembers(pools: seq<Pools.Pool>, prevPoolId: int, a: Address)
    ensures a in Candidates(pools, prevPoolId) <==>
              exists i :: 0 <= i < |pools| && Recent(pools[i], prevPoolId) && a in [pools[i].token0, pools[i].token1]
  {
    if pools != [] {
      var init := pools[..|pools| - 1];
      CandidatesMembers(init, prevPoolId, a);
      if exists i :: 0 <= i < |init| && Recent(init[i], prevPoolId) && a in [init[i].token0, init[i].token1] {
        var i :| 0 <= i < |init| && Recent(init[i], prevPoolId) && a in [init[i].token0, init[i].token1];
        assert pools[i] == init[i];
      }
      if exists i :: 0 <= i < |pools| && Recent(pools[i], prevPoolId) && a in [pools[i].token0, pools[i].token1] {
        var i :| 0 <= i < |pools| && Recent(pools[i], prevPoolId) && a in [pools[i].token0, pools[i].token1];
        if i < |init| {
          assert init[i] == pools[i];
        }
      }
    }
  }

  /** One candidate: fetch it if unknown; a successful fetch takes the next id. */
  function Visit(tokens: map<Address, Token>, tokenId: int, a: Address, getTokenInfo: Address -> Option<TokenInfo>)
    : (map<Address, Token>, int)
  {
    if a in tokens then (tokens, tokenId)
    else match getTokenInfo(a)
      case None => (tokens, tokenId)
      case Some(info) => (tokens[a := Token(tokenId, a, info.name, info.symbol, info.decimals, [])], tokenId + 1)
  }

  /** The map and next id after visiting the candidates in order. */
  function Discover(tokens: map<Address, Token>, tokenId: int, cs: seq<Address>,
                    getTokenInfo: Address -> Option<TokenInfo>): (map<Address, Token>, int)
  {
    if cs == [] then (tokens, tokenId)
    else
      var r := Discover(tokens, tokenId, cs[..|cs| - 1], getTokenInfo);
      Visit(r.0, r.1, cs[|cs| - 1], getTokenInfo)
  }

  /** A token added by discovery: the fetched metadata under an id in `[lo, hi)`, with no pools. */
  predicate Fetched(t: Token, a: Address, lo: int, hi: int, getTokenInfo: Address -> Option<TokenInfo>) {
    && getTokenInfo(a).Some?
    && t == Token(t.id, a, getTokenInfo(a).value.name, getTokenInfo(a).value.symbol, getTokenInfo(a).value.decimals, [])
    && lo <= t.id < hi
  }

  /** Some added address holds id `k`. */
  predicate IdTaken(m: map<Address, Token>, tokens: map<Address, Token>, k: int) {
    exists a :: a in m && a !in tokens && m[a].id == k
  }

  /**
   * What discovery does: known tokens are kept as they are and never
   * refetched; an address is added exactly when it is a candidate whose fetch
   * succeeds; added tokens carry the fetched metadata and pairwise distinct
   * ids, and every id between the first and the next unused one is taken,
   * so a failed fetch consumes no id.
   */
  lemma {:induction false} DiscoverSpec(tokens: map<Address, Token>, tokenId: int, cs: seq<Address>,
                                        getTokenInfo: Address -> Option<TokenInfo>)
    ensures var (m, next) := Discover(tokens, tokenId, cs, getTokenInfo);
            && tokenId <= next
            && (forall a :: a in tokens ==> a in m && m[a] == tokens[a])
            && (forall a :: a in m <==> a in tokens || (a in cs && getTokenInfo(a).Some?))
            && (forall a :: a in m && a !in tokens ==> Fetched(m[a], a, tokenId, next, getTokenInfo))
            && (forall a, b :: a in m && a !in tokens && b in m && b !in tokens && a != b ==> m[a].id != m[b].id)
            && (forall k :: tokenId <= k < next ==> IdTaken(m, tokens, k))
  {
    if cs != [] {
      var init := cs[..|cs| - 1];
      var c := cs[|cs| - 1];
      DiscoverSpec(tokens, tokenId, init, getTokenInfo);
      var (m0, next0) := Discover(tokens, tokenId, init, getTokenInfo);
      var (m, next) := Discover(tokens, tokenId, cs, getTokenInfo);
      assert (m, next) == Visit(m0, next0, c, getTokenInfo);
      forall a ensures a in m <==> a in tokens || (a in cs && getTokenInfo(a).Some?) {
        assert a in cs <==> a in init || a == c;
      }
      if c !in m0 && getTokenInfo(c).Some? {
        assert m[c].id == next0;
        forall k | tokenId <= k < next ensures IdTaken(m, tokens, k) {
          if k < next0 {
            assert IdTaken(m0, tokens, k);
            var a :| a in m0 && a !in tokens && m0[a].id == k;
            assert m[a] == m0[a];
          } else {
            assert m[c].id == k;
          }
        }
      }
    }
  }

  /** Visiting `xs` then `ys` is visiting `xs + ys`. */
  lemma {:induction false} DiscoverAppend(tokens: map<Address, Token>, tokenId: int, xs: seq<Address>,
                                          ys: seq<Address>, getTokenInfo: Address -> Option<TokenInfo>)
    ensures var r := Discover(tokens, tokenId, xs, getTokenInfo);
            Discover(r.0, r.1, ys, getTokenInfo) == Discover(tokens, tokenId, xs + ys, getTokenInfo)
  {
    if ys == [] {
      assert xs + ys == xs;
    } else {
      DiscoverAppend(tokens, tokenId, xs, ys[..|ys| - 1], getTokenInfo);
      assert (xs + ys)[..|xs + ys| - 1] == xs + ys[..|ys| - 1];
    }
  }

  /** The inner loop for one recent pool: visit token0, then token1. */
  method VisitPool(tokens: map<Address, Token>, tokenId: int, pool: Pools.Pool,
                   getTokenInfo: Address -> Option<TokenInfo>)
    returns (tokens': map<Address, Token>, tokenId': int)
    ensures (tokens', tokenId') == Discover(tokens, tokenId, [pool.token0, pool.token1], getTokenInfo)
  {
    var pair := [pool.token0, pool.token1];
    tokens', tokenId' := tokens, tokenId;
    for k := 0 to 2
      invariant (tokens', tokenId') == Discover(tokens, tokenId, pair[..k], getTokenInfo)
    {
      assert pair[..k + 1][..k] == pair[..k];
      var token := pair[k];
      if token !in tokens' {
        var info := getTokenInfo(token);
        if info.Some? {
          tokens' := tokens'[token := Token(tokenId', token, info.value.name, info.value.symbol,
                                            info.value.decimals, [])];
          tokenId' := tokenId' + 1;
        }
      }
    }
    assert pair[..2] == pair;
  }

  /**
   * The discovery loop of `load_all_tokens`: skip pools whose id is below
   * `prevPoolId - 50`; for token0 then token1 of the others, fetch unknown
   * tokens and give each successful fetch the next id.
   */
  method DiscoverTokens(tokens: map<Address, Token>, tokenId: int, pools: seq<Pools.Pool>, prevPoolId: int,
                        getTokenInfo: Address -> Option<TokenInfo>)
    returns (tokens': map<Address, Token>, tokenId': int)
    ensures (tokens', tokenId') == Discover(tokens, tokenId, Candidates(pools, prevPoolId), getTokenInfo)
  {
    tokens', tokenId' := tokens, tokenId;
    for i := 0 to |pools|
      invariant (tokens', tokenId') == Discover(tokens, tokenId, Candidates(pools[..i], prevPoolId), getTokenInfo)
    {
      assert pools[..i + 1][..i] == pools[..i];
      var pool := pools[i];
      assert Candidates(pools[..i + 1], prevPoolId)
          == Candidates(pools[..i], prevPoolId) + (if Recent(pool, prevPoolId) then [pool.token0, pool.token1] else []);
      if pool.id < prevPoolId - 50 {
        assert Candidates(pools[..i + 1], prevPoolId) == Candidates(pools[..i], prevPoolId);
        continue;
      }
      DiscoverAppend(tokens, tokenId, Candidates(pools[..i], prevPoolId), [pool.token0, pool.token1], getTokenInfo);
      tokens', tokenId' := VisitPool(tokens', tokenId', pool, getTokenInfo);
    }
    assert pools[..|pools|] == pools;
  }

  // ---------------------------------------------------------------------------
  // Pool lists
  // ---------------------------------------------------------------------------

  /** The ids of the pools trading `a`, in pool order; a pool with `a` on both sides counts twice. */
  function PoolIdsOf(pools: seq<Pools.Pool>, a: Address): seq<int> {
    if pools == [] then []
    else
      var p := pools[|pools| - 1];
      PoolIdsOf(pools[..|pools| - 1], a)
      + (if p.token0 == a then [p.id] else [])
      + (if p.token1 == a then [p.id] else [])
  }

  /** An id is listed for `a` exactly when some pool with that id has `a` as token0 or token1. */
  lemma {:induction false} PoolIdsOfMembers(pools: seq<Pools.Pool>, a: Address, id: int)
    ensures id in PoolIdsOf(pools, a) <==>
              exists i :: 0 <= i < |pools| && pools[i].id == id && (pools[i].token0 == a || pools[i].token1 == a)
  {
    if pools != [] {
      var init := pools[..|pools| - 1];
      PoolIdsOfMembers(init, a, id);
      if exists i :: 0 <= i < |init| && init[i].id == id && (init[i].token0 == a || init[i].token1 == a) {
        var i :| 0 <= i < |init| && init[i].id == id && (init[i].token0 == a || init[i].token1 == a);
        assert pools[i] == init[i];
      }
      if exists i :: 0 <= i < |pools| && pools[i].id == id && (pools[i].token0 == a || pools[i].token1 == a) {
        var i :| 0 <= i < |pools| && pools[i].id == id && (pools[i].token0 == a || pools[i].token1 == a);
        if i < |init| {
          assert init[i] == pools[i];
        }
      }
    }
  }

  /** `get_mut(a)` then `push(id)`: nothing happens for an unknown token. */
  function Push(tokens: map<Address, Token>, a: Address, id: int): map<Address, Token> {
    if a in tokens then tokens[a := tokens[a].(poolIds := tokens[a].poolIds + [id])] else tokens
  }

  /** The map after the second pass over `pools`. */
  function Attached(tokens: map<Address, Token>, pools: seq<Pools.Pool>): map<Address, Token> {
    if pools == [] then tokens
    else
      var p := pools[|pools| - 1];
      Push(Push(Attached(tokens, pools[..|pools| - 1]), p.token0, p.id), p.token1, p.id)
  }

  /** The second pass never adds or removes a token. */
  lemma {:induction false} AttachedKeys(tokens: map<Address, Token>, pools: seq<Pools.Pool>)
    ensures Attached(tokens, pools).Keys == tokens.Keys
  {
    if pools != [] {
      AttachedKeys(tokens, pools[..|pools| - 1]);
    }
  }

  /** After the second pass, a known token's list is its old list followed by the ids of the pools trading it. */
  lemma {:induction false} AttachedAt(tokens: map<Address, Token>, pools: seq<Pools.Pool>, a: Address)
    requires a in tokens
    ensures a in Attached(tokens, pools)
    ensures Attached(tokens, pools)[a] == tokens[a].(poolIds := tokens[a].poolIds + PoolIdsOf(pools, a))
  {
    if pools != [] {
      var init := pools[..|pools| - 1];
      var p := pools[|pools| - 1];
      AttachedAt(tokens, init, a);
      var m0 := Attached(tokens, init);
      var m1 := Push(m0, p.token0, p.id);
      var own0 := if p.token0 == a then [p.id] else [];
      var own1 := if p.token1 == a then [p.id] else [];
      assert m1[a].poolIds == m0[a].poolIds + own0;
      assert Attached(tokens, pools)[a].poolIds == m1[a].poolIds + own1;
      assert tokens[a].poolIds + PoolIdsOf(init, a) + own0 + own1
          == tokens[a].poolIds + (PoolIdsOf(init, a) + own0 + own1);
    }
  }

  /**
   * The second pass leaves the set of tokens alone and appends to each
   * token's list the ids of the pools trading it, in pool order.
   */
  lemma AttachedSpec(tokens: map<Address, Token>, pools: seq<Pools.Pool>)
    ensures Attached(tokens, pools).Keys == tokens.Keys
    ensures forall a :: a in tokens ==>
              Attached(tokens, pools)[a] == tokens[a].(poolIds := tokens[a].poolIds + PoolIdsOf(pools, a))
  {
    AttachedKeys(tokens, pools);
    forall a | a in tokens
      ensures Attached(tokens, pools)[a] == tokens[a].(poolIds := tokens[a].poolIds + PoolIdsOf(pools, a))
    {
      AttachedAt(tokens, pools, a);
    }
  }

  /** The second pass: append each pool's id to the lists of its two tokens, if they are known. */
  method AttachPoolIds(tokens: map<Address, Token>, pools: seq<Pools.Pool>) returns (tokens': map<Address, Token>)
    ensures tokens' == Attached(tokens, pools)
  {
    tokens' := tokens;
    for i := 0 to |pools|
      invariant tokens' == Attached(tokens, pools[..i])
    {
      assert pools[..i + 1][..i] == pools[..i];
      var pool := pools[i];
      if pool.token0 in tokens' {
        tokens' := tokens'[pool.token0 := tokens'[pool.token0].(poolIds := tokens'[pool.token0].poolIds + [pool.id])];
      }
      if pool.token1 in tokens' {
        tokens' := tokens'[pool.token1 := tokens'[pool.token1].(poolIds := tokens'[pool.token1].poolIds + [pool.id])];
      }
    }
    assert pools[..|pools|] == pools;
  }

  // ---------------------------------------------------------------------------
  // Writing new tokens
  // ---------------------------------------------------------------------------

  function TokenId(t: Token): int {
    t.id
  }

  /** The id of the token stored under a key, as a sort key over the map's keys. */
  function IdOf(tokens: map<Address, Token>): Address -> int {
    a => if a in tokens then tokens[a].id else -1
  }

  /** The tokens of the map with id at least `newTokenId`. */
  function NewTokens(tokens: map<Address, Token>, newTokenId: int): set<Token> {
    set a | a in tokens && tokens[a].id >= newTokenId :: tokens[a]
  }

  /** The keys of `ks` whose sort key is at least `newTokenId`, in order. */
  function AtOrAbove(ks: seq<Address>, id: Address -> int, newTokenId: int): (r: seq<Address>)
    ensures forall a :: a in r <==> a in ks && id(a) >= newTokenId
  {
    if ks == [] then []
    else
      var a := ks[|ks| - 1];
      AtOrAbove(ks[..|ks| - 1], id, newTokenId) + (if id(a) >= newTokenId then [a] else [])
  }

  lemma {:induction false} AtOrAboveSorted(ks: seq<Address>, id: Address -> int, newTokenId: int)
    requires Sorting.SortedBy(ks, id)
    ensures Sorting.SortedBy(AtOrAbove(ks, id, newTokenId), id)
  {
    if ks != [] {
      var init := ks[..|ks| - 1];
      var a := ks[|ks| - 1];
      assert Sorting.SortedBy(init, id);
      AtOrAboveSorted(init, id, newTokenId);
      var r0 := AtOrAbove(init, id, newTokenId);
      if id(a) >= newTokenId {
        forall i | 0 <= i < |r0| ensures id(r0[i]) <= id(a) {
          assert r0[i] in init;
          var k :| 0 <= k < |init| && init[k] == r0[i];
          assert ks[k] == r0[i];
        }
        SortedSnoc(r0, a, id);
      }
    }
  }

  lemma SortedSnoc(r: seq<Address>, a: Address, id: Address -> int)
    requires Sorting.SortedBy(r, id)
    requires forall i :: 0 <= i < |r| ==> id(r[i]) <= id(a)
    ensures Sorting.SortedBy(r + [a], id)
  {
    var r' := r + [a];
    forall i, j | 0 <= i < j < |r'| ensures id(r'[i]) <= id(r'[j]) {
      if j < |r| {
        assert r'[i] == r[i] && r'[j] == r[j];
      }
    }
  }

  /** Filtering keeps a list free of repeats. */
  lemma {:induction false} AtOrAboveDistinct(ks: seq<Address>, id: Address -> int, newTokenId: int)
    requires Sorting.Distinct(ks)
    ensures Sorting.Distinct(AtOrAbove(ks, id, newTokenId))
  {
    if ks != [] {
      var init := ks[..|ks| - 1];
      var a := ks[|ks| - 1];
      assert Sorting.Distinct(init);
      AtOrAboveDistinct(init, id, newTokenId);
      var r0 := AtOrAbove(init, id, newTokenId);
      if id(a) >= newTokenId {
        assert a !in init;
        assert a !in r0;
        var r := r0 + [a];
        forall i, j | 0 <= i < j < |r| ensures r[i] != r[j] {
          assert r[i] == r0[i];
          if j < |r0| {
            assert r[j] == r0[j];
          } else {
            assert r0[i] in r0;
          }
        }
      }
    }
  }

  /** The keys of the map, each once, in the order the map yields them. */
  method MapKeys(tokens: map<Address, Token>) returns (refs: seq<Address>)
    ensures Sorting.Distinct(refs)
    ensures forall a :: a in refs <==> a in tokens
  {
    refs := [];
    var rest := tokens.Keys;
    while rest != {}
      invariant rest <= tokens.Keys && Sorting.Distinct(refs)
      invariant forall a :: a in refs <==> a in tokens && a !in rest
      decreases rest
    {
      var a :| a in rest;
      refs := refs + [a];
      rest := rest - {a};
    }
  }

  /** The tokens stored under a list of keys, in the order of the list. */
  function TokensAt(tokens: map<Address, Token>, ks: seq<Address>): (r: seq<Token>)
    requires forall a :: a in ks ==> a in tokens
    ensures |r| == |ks| && forall i :: 0 <= i < |ks| ==> r[i] == tokens[ks[i]]
  {
    seq(|ks|, i requires 0 <= i < |ks| => tokens[ks[i]])
  }

  /** Keys sorted by id give tokens sorted by id; keys of new tokens give exactly the new tokens. */
  lemma TokensAtNew(tokens: map<Address, Token>, ks: seq<Address>, newTokenId: int)
    requires Sorting.SortedBy(ks, IdOf(tokens))
    requires forall a :: a in ks <==> a in tokens && tokens[a].id >= newTokenId
    ensures Sorting.SortedBy(TokensAt(tokens, ks), TokenId)
    ensures forall t :: t in TokensAt(tokens, ks) <==> t in NewTokens(tokens, newTokenId)
  {
    var r := TokensAt(tokens, ks);
    forall i, j | 0 <= i < j < |r| ensures TokenId(r[i]) <= TokenId(r[j]) {
      assert IdOf(tokens)(ks[i]) <= IdOf(tokens)(ks[j]);
    }
    forall t | t in NewTokens(tokens, newTokenId) ensures t in r {
      var a :| a in tokens && tokens[a].id >= newTokenId && tokens[a] == t;
      var i :| 0 <= i < |ks| && ks[i] == a;
      assert r[i] == t;
    }
  }

  lemma PermutationMembers(a: seq<Address>, b: seq<Address>)
    requires multiset(a) == multiset(b)
    ensures forall x :: x in a <==> x in b
  {
    forall x ensures x in a <==> x in b {
      assert x in a <==> x in multiset(a);
      assert x in b <==> x in multiset(b);
    }
  }

  /**
   * The write-back of `load_all_tokens`. `tokens_vec` holds references into
   * the map, in whatever order the map yields them; the model holds the keys
   * they point at. The references are stably sorted by token id, and the
   * tokens with id at least `newTokenId` are written, each map entry once:
   * `keys[i]` is the entry `written[i]` comes from.
   */
  method WrittenTokens(tokens: map<Address, Token>, newTokenId: int)
    returns (written: seq<Token>, ghost keys: seq<Address>)
    ensures Sorting.SortedBy(written, TokenId)
    ensures forall t :: t in written <==> t in NewTokens(tokens, newTokenId)
    ensures |keys| == |written| && Sorting.Distinct(keys)
    ensures forall i :: 0 <= i < |keys| ==> keys[i] in tokens && written[i] == tokens[keys[i]]
    ensures forall a :: a in keys <==> a in tokens && tokens[a].id >= newTokenId
  {
    var refs := MapKeys(tokens);
    var sorted := Sorting.SortByKey(refs, IdOf(tokens));
    Sorting.DistinctPermutation(refs, sorted);
    PermutationMembers(refs, sorted);
    var picked := AtOrAbove(sorted, IdOf(tokens), newTokenId);
    AtOrAboveSorted(sorted, IdOf(tokens), newTokenId);
    AtOrAboveDistinct(sorted, IdOf(tokens), newTokenId);
    written := TokensAt(tokens, picked);
    keys := picked;
    TokensAtNew(tokens, picked, newTokenId);
  }

  // ---------------------------------------------------------------------------
  // `load_all_tokens`
  // ---------------------------------------------------------------------------

  /**
   * `load_all_tokens` after the cache is read: ids continue from the number
   * of cached rows; unknown tokens of recent pools are fetched; every known
   * token is given the ids of all pools trading it; the tokens with id at
   * or above the first new id are returned for appending to the cache.
   */
  method LoadAllTokens(rows: seq<seq<string>>, pools: seq<Pools.Pool>, prevPoolId: int,
                       getTokenInfo: Address -> Option<TokenInfo>)
    returns (tokens: map<Address, Token>, newTokenId: int, written: seq<Token>, ghost keys: seq<Address>)
    requires Parsable(rows)
    ensures newTokenId == |rows|
    ensures var d := Discover(CacheMap(rows), newTokenId, Candidates(pools, prevPoolId), getTokenInfo).0;
            tokens == Attached(d, pools)
    ensures Sorting.SortedBy(written, TokenId)
    ensures forall t :: t in written <==> t in NewTokens(tokens, newTokenId)
    ensures |keys| == |written| && Sorting.Distinct(keys)
    ensures forall i :: 0 <= i < |keys| ==> keys[i] in tokens && written[i] == tokens[keys[i]]
    ensures forall a :: a in keys <==> a in tokens && tokens[a].id >= newTokenId
  {
    var cached, tokenId := ReadCache(rows);
    newTokenId := tokenId;
    var discovered, _ := DiscoverTokens(cached, tokenId, pools, prevPoolId, getTokenInfo);
    tokens := AttachPoolIds(discovered, pools);
    written, keys := WrittenTokens(tokens, newTokenId);
  }

  /**
   * Every token of the result lists exactly the pools trading it: cached
   * and fetched tokens both start with no pools.
   */
  lemma LoadedPoolIds(rows: seq<seq<string>>, pools: seq<Pools.Pool>, prevPoolId: int,
                      getTokenInfo: Address -> Option<TokenInfo>, a: Address)
    requires Parsable(rows)
    ensures var d := Discover(CacheMap(rows), |rows|, Candidates(pools, prevPoolId), getTokenInfo).0;
            var m := Attached(d, pools);
            a in m <==> a in d
    ensures var d := Discover(CacheMap(rows), |rows|, Candidates(pools, prevPoolId), getTokenInfo).0;
            var m := Attached(d, pools);
            a in m ==> m[a].address == a && m[a].poolIds == PoolIdsOf(pools, a)
  {
    var cached := CacheMap(rows);
    var d := Discover(cached, |rows|, Candidates(pools, prevPoolId), getTokenInfo).0;
    DiscoverSpec(cached, |rows|, Candidates(pools, prevPoolId), getTokenInfo);
    CacheMapValues(rows, a);
    AttachedSpec(d, pools);
    if a in d {
      assert d[a].poolIds == [] && d[a].address == a;
    }
  }
}
