/** The game catalog and its split into one pool per provider. */
module Games {

  datatype Option<T> = None | Some(value: T)

  /** A catalog entry. The engine only looks at `provider`; the rest is shown on a card. */
  datatype Game = Game(name: string, image: string, provider: string, rtp: Option<string>)

  /** The three columns of the machine, one per provider. */
  datatype Provider = Jili | Pg | Pp

  /** The exact provider string a catalog entry must carry to land in a column's pool. */
  function ProviderName(p: Provider): (name: string)
    ensures name == "JILI" <==> p == Jili
    ensures name == "PG Soft" <==> p == Pg
    ensures name == "PP Slot" <==> p == Pp
  {
    match p
    case Jili => "JILI"
    case Pg => "PG Soft"
    case Pp => "PP Slot"
  }

  predicate Distinct<T(==)>(s: seq<T>)
  {
    forall i, j :: 0 <= i < j < |s| ==> s[i] != s[j]
  }

  function Min(a: int, b: int): int
  {
    if a <= b then a else b
  }

  /** `games.filter(g => g.provider === provider)`: keeps, in order, exactly the entries of that provider. */
  function ProviderPool(games: seq<Game>, provider: string): (pool: seq<Game>)
    ensures |pool| <= |games|
    ensures forall g :: g in pool <==> g in games && g.provider == provider
  {
    if games == [] then []
    else
      var rest := ProviderPool(games[1..], provider);
      assert games == [games[0]] + games[1..];
      if games[0].provider == provider then [games[0]] + rest else rest
  }

  /** The filter keeps every entry of the provider as often as the catalog lists it, and
      no other entry. */
  lemma {:induction false} PoolCounts(games: seq<Game>, provider: string)
    ensures forall g :: multiset(ProviderPool(games, provider))[g]
                        == if g.provider == provider then multiset(games)[g] else 0
  {
    if games != [] {
      PoolCounts(games[1..], provider);
      assert games == [games[0]] + games[1..];
    }
  }

  /** A catalog without repeats gives pools without repeats. */
  lemma {:induction false} PoolDistinct(games: seq<Game>, provider: string)
    requires Distinct(games)
    ensures Distinct(ProviderPool(games, provider))
  {
    if games != [] {
      PoolDistinct(games[1..], provider);
      assert games == [games[0]] + games[1..];
    }
  }

  /** The pool a column draws from. */
  function PoolOf(games: seq<Game>, p: Provider): (pool: seq<Game>)
    ensures forall g :: g in pool ==> g.provider == ProviderName(p)
  {
    ProviderPool(games, ProviderName(p))
  }

  /** No catalog entry is shared between two pools, and together the pools use each entry
      at most as often as the catalog holds it. */
  lemma PoolsPartition(games: seq<Game>)
    ensures forall g :: !(g in PoolOf(games, Jili) && g in PoolOf(games, Pg))
    ensures forall g :: !(g in PoolOf(games, Jili) && g in PoolOf(games, Pp))
    ensures forall g :: !(g in PoolOf(games, Pg) && g in PoolOf(games, Pp))
    ensures multiset(PoolOf(games, Jili)) + multiset(PoolOf(games, Pg)) + multiset(PoolOf(games, Pp))
            <= multiset(games)
    ensures |PoolOf(games, Jili)| + |PoolOf(games, Pg)| + |PoolOf(games, Pp)| <= |games|
  {
    var a, b, c := PoolOf(games, Jili), PoolOf(games, Pg), PoolOf(games, Pp);
    PoolCounts(games, ProviderName(Jili));
    PoolCounts(games, ProviderName(Pg));
    PoolCounts(games, ProviderName(Pp));
    var m := multiset(a) + multiset(b) + multiset(c);
    forall g ensures m[g] <= multiset(games)[g] {
      assert ProviderName(Jili) != ProviderName(Pg) && ProviderName(Jili) != ProviderName(Pp)
        && ProviderName(Pg) != ProviderName(Pp);
    }
    assert m <= multiset(games);
    assert |m| <= |multiset(games)| by { SubMultisetSize(m, multiset(games)); }
  }

  lemma SubMultisetSize<T>(a: multiset<T>, b: multiset<T>)
    requires a <= b
    ensures |a| <= |b|
  {
    assert b == a + (b - a);
  }
}
