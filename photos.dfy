/** The request built by `get_photos` (vk_geotags.py:10-44): a query-string map of
    eleven keys, nine taken from the arguments and two from the `config` module. */
module Photos {
  import opened Wrappers

  /** The two constants the module imports from `config` (config.example.py:7,11). */
  datatype Config = Config(apiVersion: string, serviceToken: string)

  /** The arguments of `get_photos`, in the order of its signature. */
  datatype PhotosArgs = PhotosArgs(
    q: string,
    lat: real,
    long: real,
    radius: int,
    startTimeUnix: int,
    endTimeUnix: int,
    count: int,
    offset: int,
    sort: int)

  /** A query-string value; each argument reaches the map with its own type. */
  datatype Param = Text(s: string) | Integer(i: int) | Decimal(d: real)

  /** The eleven keys of the dictionary; Name gives the text each is sent under. */
  datatype Key = Q | Lat | Long | Radius | StartTime | EndTime | Count | Offset | Sort | V | AccessToken

  function Name(k: Key): string {
    match k
    case Q => "q"
    case Lat => "lat"
    case Long => "long"
    case Radius => "radius"
    case StartTime => "start_time"
    case EndTime => "end_time"
    case Count => "count"
    case Offset => "offset"
    case Sort => "sort"
    case V => "v"
    case AccessToken => "access_token"
  }

  const ParameterKeys: set<Key> :=
    {Q, Lat, Long, Radius, StartTime, EndTime, Count, Offset, Sort, V, AccessToken}

  /** No two keys are sent under the same name, so the eleven entries stay eleven. */
  lemma NamesDistinct(k1: Key, k2: Key)
    requires Name(k1) == Name(k2)
    ensures k1 == k2
  {
  }

  /** The `parameters` dictionary. No argument is checked: the docstring asks for a
      radius in {10, 100, 800, 6000, 50000} and a count of at most 1000, but any
      value is forwarded unchanged. */
  function Parameters(args: PhotosArgs, cfg: Config): (m: map<Key, Param>)
    ensures m.Keys == ParameterKeys
    ensures m[Radius] == Integer(args.radius) && m[Count] == Integer(args.count)
    ensures m[Offset] == Integer(args.offset)
  {
    map[
      Q := Text(args.q),
      Lat := Decimal(args.lat),
      Long := Decimal(args.long),
      Radius := Integer(args.radius),
      StartTime := Integer(args.startTimeUnix),
      EndTime := Integer(args.endTimeUnix),
      Count := Integer(args.count),
      Offset := Integer(args.offset),
      Sort := Integer(args.sort),
      V := Text(cfg.apiVersion),
      AccessToken := Text(cfg.serviceToken)]
  }

  /** Reads the arguments back out of a query-string map: the inverse of Parameters. */
  function DecodeParameters(m: map<Key, Param>): (r: Option<(PhotosArgs, Config)>)
    ensures r.Some? ==> m.Keys == ParameterKeys
  {
    if m.Keys == ParameterKeys
       && m[Q].Text? && m[Lat].Decimal? && m[Long].Decimal?
       && m[Radius].Integer? && m[StartTime].Integer? && m[EndTime].Integer?
       && m[Count].Integer? && m[Offset].Integer? && m[Sort].Integer?
       && m[V].Text? && m[AccessToken].Text?
    then
      Some((PhotosArgs(m[Q].s, m[Lat].d, m[Long].d, m[Radius].i,
                       m[StartTime].i, m[EndTime].i, m[Count].i,
                       m[Offset].i, m[Sort].i),
            Config(m[V].s, m[AccessToken].s)))
    else
      None
  }

  /** Every argument and both configuration values survive into the map unchanged. */
  lemma ParametersRoundTrip(args: PhotosArgs, cfg: Config)
    ensures DecodeParameters(Parameters(args, cfg)) == Some((args, cfg))
  {
  }

  /** A map that decodes is exactly the map built from what it decodes to. */
  lemma DecodedParametersRebuild(m: map<Key, Param>)
    requires DecodeParameters(m).Some?
    ensures Parameters(DecodeParameters(m).value.0, DecodeParameters(m).value.1) == m
  {
  }

  /** Distinct argument lists give distinct requests: nothing is dropped or merged. */
  lemma ParametersInjective(a1: PhotosArgs, c1: Config, a2: PhotosArgs, c2: Config)
    requires Parameters(a1, c1) == Parameters(a2, c2)
    ensures a1 == a2 && c1 == c2
  {
  }
}
