/**
 * `ProjectMapperProvider.mapper(config:)`: the project mappers run before
 * generation, in order, wrapped in one sequential mapper.
 */
module ProjectMappers {
  import opened TuistCore

  /** The project mappers the provider can choose, and the one that chains them. */
  datatype ProjectMapping =
    | AutogeneratedSchemesProjectMapper
    | DeleteDerivedDirectoryProjectMapper
    | GenerateInfoPlistProjectMapper
    | ResourcesProjectMapper
    | SigningMapper
    | SequentialProjectMapper(mappers: seq<ProjectMapping>)

  /** Whether the configuration turns scheme autogeneration off. */
  predicate AutogenerationDisabled(config: Config)
  {
    DisableAutogeneratedSchemes in config.generationOptions
  }

  /**
   * `mapper(config:)`: a sequential mapper over the autogenerated-schemes
   * mapper (unless the configuration disables it), then the derived-directory
   * deletion, Info.plist generation, resources and signing mappers. The
   * autogenerated-schemes mapper is there exactly once or not at all, and
   * signing is there exactly once, last.
   */
  method Mapper(config: Config) returns (mapping: ProjectMapping)
    ensures mapping.SequentialProjectMapper?
    ensures |mapping.mappers| == if AutogenerationDisabled(config) then 4 else 5
    ensures Count(mapping.mappers, AutogeneratedSchemesProjectMapper) == if AutogenerationDisabled(config) then 0 else 1
    ensures Count(mapping.mappers, SigningMapper) == 1
    ensures mapping.mappers[|mapping.mappers| - 1] == SigningMapper
    ensures mapping.mappers[|mapping.mappers| - 4..] == FixedMappers
  {
    var mappers: seq<ProjectMapping> := [];

    if !(DisableAutogeneratedSchemes in config.generationOptions) {
      mappers := mappers + [AutogeneratedSchemesProjectMapper];
    }
    ghost var autogenerated := mappers;

    mappers := mappers + [DeleteDerivedDirectoryProjectMapper];
    mappers := mappers + [GenerateInfoPlistProjectMapper];

    mappers := mappers + [ResourcesProjectMapper];

    mappers := mappers + [SigningMapper];

    assert mappers == autogenerated + FixedMappers;
    MapperCounts(autogenerated);
    return SequentialProjectMapper(mappers);
  }

  /** The four mappers every configuration gets, in order. */
  const FixedMappers: seq<ProjectMapping> :=
    [DeleteDerivedDirectoryProjectMapper, GenerateInfoPlistProjectMapper, ResourcesProjectMapper, SigningMapper]

  /**
   * Whether or not the autogenerated-schemes mapper leads, the list holds it
   * as often as it leads and holds signing exactly once.
   */
  lemma MapperCounts(prefix: seq<ProjectMapping>)
    requires prefix == [] || prefix == [AutogeneratedSchemesProjectMapper]
    ensures Count(prefix + FixedMappers, AutogeneratedSchemesProjectMapper) == |prefix|
    ensures Count(prefix + FixedMappers, SigningMapper) == 1
  {
    CountConcat(prefix, FixedMappers, AutogeneratedSchemesProjectMapper);
    CountConcat(prefix, FixedMappers, SigningMapper);
    FixedMapperCounts();
    if prefix != [] {
      CountSingle(AutogeneratedSchemesProjectMapper, AutogeneratedSchemesProjectMapper);
      CountSingle(AutogeneratedSchemesProjectMapper, SigningMapper);
    }
  }

  /** The four fixed mappers hold signing once and the autogenerated-schemes mapper never. */
  lemma FixedMapperCounts()
    ensures Count(FixedMappers, AutogeneratedSchemesProjectMapper) == 0
    ensures Count(FixedMappers, SigningMapper) == 1
  {
    var d, g, r, sg := [DeleteDerivedDirectoryProjectMapper], [GenerateInfoPlistProjectMapper], [ResourcesProjectMapper], [SigningMapper];
    assert FixedMappers == d + (g + (r + sg));
    forall m | m == AutogeneratedSchemesProjectMapper || m == SigningMapper
      ensures Count(FixedMappers, m) == if m == SigningMapper then 1 else 0
    {
      CountConcat(r, sg, m);
      CountConcat(g, r + sg, m);
      CountConcat(d, g + (r + sg), m);
      CountSingle(DeleteDerivedDirectoryProjectMapper, m);
      CountSingle(GenerateInfoPlistProjectMapper, m);
      CountSingle(ResourcesProjectMapper, m);
      CountSingle(SigningMapper, m);
    }
  }

  /** A list of one mapper holds a given mapper once when they are the same, and never otherwise. */
  lemma CountSingle(x: ProjectMapping, m: ProjectMapping)
    ensures Count([x], m) == if x == m then 1 else 0
  {
    assert [x][1..] == [];
  }

  /** Counting over a concatenation adds the counts of its halves. */
  lemma {:induction false} CountConcat(xs: seq<ProjectMapping>, ys: seq<ProjectMapping>, m: ProjectMapping)
    ensures Count(xs + ys, m) == Count(xs, m) + Count(ys, m)
    decreases |xs|
  {
    if xs == [] {
      assert xs + ys == ys;
    } else {
      assert (xs + ys)[1..] == xs[1..] + ys;
      CountConcat(xs[1..], ys, m);
    }
  }

  /** `mappers.filter { $0 is M }.count`, for a mapper kind without parameters. */
  function Count(ms: seq<ProjectMapping>, m: ProjectMapping): (n: nat)
    ensures n <= |ms|
    ensures n == 0 <==> m !in ms
    decreases |ms|
  {
    if ms == [] then 0
    else
      assert forall x :: x in ms <==> x == ms[0] || x in ms[1..];
      (if ms[0] == m then 1 else 0) + Count(ms[1..], m)
  }
}
