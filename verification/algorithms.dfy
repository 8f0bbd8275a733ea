/** The algorithm registry of the forecast service: three named strategies,
    each with a display label, and one "current" selection. */
module Algorithms {
  import opened Results

  datatype Algorithm = Simple | MovingAverage | LinearRegression

  /** The registry's keys, in the order the service declares them. */
  const All: seq<Algorithm> := [Simple, MovingAverage, LinearRegression]

  /** The key an algorithm is selected by. */
  function Name(a: Algorithm): string
  {
    match a
    case Simple => "simple"
    case MovingAverage => "moving_average"
    case LinearRegression => "linear_regression"
  }

  /** The label reported with every forecast point. */
  function Label(a: Algorithm): string
  {
    match a
    case Simple => "Tendance Simple"
    case MovingAverage => "Moyenne Mobile (7 jours)"
    case LinearRegression => "Régression Linéaire"
  }

  /** `list(self.algorithms.keys())` */
  function Names(): (r: seq<string>)
    ensures |r| == |All|
    ensures forall i :: 0 <= i < |All| ==> r[i] == Name(All[i])
  {
    ["simple", "moving_average", "linear_regression"]
  }

  /** `get_available_algorithms`: the name-to-label table. */
  function Available(): (m: map<string, string>)
    ensures forall a: Algorithm :: Name(a) in m && m[Name(a)] == Label(a)
    ensures forall k :: k in m ==> k in Names()
  {
    map[Name(Simple) := Label(Simple),
        Name(MovingAverage) := Label(MovingAverage),
        Name(LinearRegression) := Label(LinearRegression)]
  }

  /** The state of the service: which algorithm is selected. */
  datatype Registry = Registry(current: Algorithm)

  /** The state a new service starts in. */
  const Initial: Registry := Registry(MovingAverage)

  /** `get_current_algorithm` */
  function Current(reg: Registry): (name: string)
    ensures name in Names()
    ensures Lookup(name) == Some(reg.current)
  {
    NamesRoundTrip(reg.current);
    Name(reg.current)
  }

  /** The `ValueError` raised for an unknown name: it quotes the name and the
      available ones. */
  datatype RegistryError = InvalidAlgorithm(name: string, available: seq<string>)

  /** The algorithm a name selects, if any. */
  function Lookup(name: string): (r: Option<Algorithm>)
    ensures r.Some? <==> name in Names()
    ensures r.Some? ==> Name(r.value) == name
  {
    if name == "simple" then Some(Simple)
    else if name == "moving_average" then Some(MovingAverage)
    else if name == "linear_regression" then Some(LinearRegression)
    else None
  }

  /** A registry after `set_algorithm`, and the error it raised if any. */
  datatype Selection = Selection(registry: Registry, raised: Option<RegistryError>)

  /** `set_algorithm`: a known name becomes the current selection; an unknown
      one raises and leaves the selection as it was. */
  function SetAlgorithm(reg: Registry, name: string): (r: Selection)
    ensures r.raised.None? <==> name in Names()
    ensures r.raised.None? ==> Name(r.registry.current) == name
    ensures r.raised.Some? ==> r.registry == reg && r.raised.value == InvalidAlgorithm(name, Names())
  {
    match Lookup(name)
    case Some(a) => Selection(Registry(a), None)
    case None => Selection(reg, Some(InvalidAlgorithm(name, Names())))
  }

  /** Names and algorithms are in one-to-one correspondence. */
  lemma NamesRoundTrip(a: Algorithm)
    ensures Name(a) in Names()
    ensures Lookup(Name(a)) == Some(a)
  {
  }

  /** Distinct algorithms have distinct names and distinct labels. */
  lemma NamesAndLabelsDistinct(a: Algorithm, b: Algorithm)
    requires a != b
    ensures Name(a) != Name(b)
    ensures Label(a) != Label(b)
  {
    NamesRoundTrip(a);
    NamesRoundTrip(b);
    assert Label(a)[0] != Label(b)[0];
  }

  /** Selecting an algorithm by its own name selects it, whatever was
      selected before; selecting twice is the same as selecting once. */
  lemma SelectByName(reg: Registry, a: Algorithm)
    ensures SetAlgorithm(reg, Name(a)) == Selection(Registry(a), None)
    ensures SetAlgorithm(SetAlgorithm(reg, Name(a)).registry, Name(a)) == SetAlgorithm(reg, Name(a))
  {
    NamesRoundTrip(a);
  }

  /** The three keys the service declares. */
  lemma DeclaredNames()
    ensures Names() == ["simple", "moving_average", "linear_regression"]
    ensures Current(Initial) == "moving_average"
  {
  }
}
