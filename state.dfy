/** `src/state.rs`: the scene builder and the scene it builds. The object and
    light-source types are left as type parameters. */
module State {
  import opened Options

  /** `Scene`: the dimensions and the two lists, always present. */
  datatype Scene<O, L> = Scene(width: real, height: real, objects: seq<O>, lightSources: seq<L>)

  /** `Option::unwrap_or_default` on a vector. */
  function UnwrapOrEmpty<T>(o: Option<seq<T>>): (s: seq<T>)
    ensures o.None? ==> s == []
    ensures o.Some? ==> s == o.value
  {
    match o
    case None => []
    case Some(v) => v
  }

  /** The scene `Scene::build` makes from a builder's fields. */
  function Built<O, L>(width: real, height: real, objects: Option<seq<O>>, lightSources: Option<seq<L>>): (s: Scene<O, L>)
    ensures s.width == width && s.height == height
    ensures objects.None? ==> s.objects == []
    ensures lightSources.None? ==> s.lightSources == []
    ensures objects.Some? ==> s.objects == objects.value
    ensures lightSources.Some? ==> s.lightSources == lightSources.value
  {
    Scene(width, height, UnwrapOrEmpty(objects), UnwrapOrEmpty(lightSources))
  }

  /** A builder that was never given any list builds an empty scene of its
      own dimensions. */
  lemma UnsetBuildsEmpty<O, L>(width: real, height: real)
    ensures Built<O, L>(width, height, None, None) == Scene(width, height, [], [])
  {
  }

  class SceneBuilder<O, L> {
    var width: real
    var height: real
    var objects: Option<seq<O>>
    var lightSources: Option<seq<L>>

    /** `SceneBuilder::new`: the dimensions, with both lists unset. */
    constructor (width: real, height: real)
      ensures this.width == width && this.height == height
      ensures objects == None && lightSources == None
    {
      this.width := width;
      this.height := height;
      objects := None;
      lightSources := None;
    }

    /** `add_objects`: replaces any earlier list; nothing else changes. */
    method AddObjects(objs: seq<O>)
      modifies this
      ensures objects == Some(objs)
      ensures width == old(width) && height == old(height) && lightSources == old(lightSources)
    {
      objects := Some(objs);
    }

    /** `add_light_sources`: replaces any earlier list; nothing else changes. */
    method AddLightSources(lights: seq<L>)
      modifies this
      ensures lightSources == Some(lights)
      ensures width == old(width) && height == old(height) && objects == old(objects)
    {
      lightSources := Some(lights);
    }

    /** `Scene::build`: copies the dimensions; an unset list becomes empty. */
    method Build() returns (s: Scene<O, L>)
      ensures s == Built(width, height, objects, lightSources)
    {
      var objs := match objects case Some(v) => v case None => [];
      var lights := match lightSources case Some(v) => v case None => [];
      s := Scene(width, height, objs, lights);
    }
  }

  /** Adding objects twice keeps only the second list, whatever the lists
      and whether the light sources are set before, between or after: the
      built scene holds exactly the last object list, the light sources given,
      and the dimensions the builder was made with. */
  method BuildAfterTwoAdds<O, L>(width: real, height: real, first: seq<O>, second: seq<O>, lights: seq<L>, when: nat)
    returns (s: Scene<O, L>)
    ensures s == Scene(width, height, second, lights)
  {
    var sb := new SceneBuilder<O, L>(width, height);
    if when == 0 {
      sb.AddLightSources(lights);
    }
    sb.AddObjects(first);
    if when == 1 {
      sb.AddLightSources(lights);
    }
    sb.AddObjects(second);
    if when >= 2 {
      sb.AddLightSources(lights);
    }
    s := sb.Build();
  }
}
