/** Localized label of a contribution (a person or an organisation described
    by several authority sources): the first non-empty value of a key among
    the sources, in the order configured for the language.
 */
module Contributions {
  import opened Records

  /** A value of the label-order configuration: the list of source names of
      a language, or, under `fallback`, the name of a language. */
  datatype OrderEntry = Sources(sources: seq<string>) | Language(name: string)

  /** The label-order configuration, keyed by language (and `fallback`). */
  type LabelOrder = map<string, OrderEntry>

  const FallbackKey := "fallback"

  /** The configuration names its fallback language; the lookup reads it
      even when the requested language is configured. */
  predicate HasFallback(order: LabelOrder)
  {
    FallbackKey in order && order[FallbackKey].Language?
  }

  /** What the `for` loop visits when it walks an entry: the items of a
      list, or the one-character strings of a name. */
  function Walk(e: OrderEntry): (names: seq<string>)
    ensures e.Sources? ==> names == e.sources
    ensures e.Language? ==> |names| == |e.name|
  {
    match e
    case Sources(s) => s
    case Language(name) => seq(|name|, i requires 0 <= i < |name| => [name[i]])
  }

  /** The sources to consult for a language: its own list, else the list of
      the fallback language, else none. */
  function SourceOrder(order: LabelOrder, language: string): (r: seq<string>)
    requires HasFallback(order)
    ensures language in order && order[language].Sources? ==> r == order[language].sources
    ensures language !in order && order[FallbackKey].name in order && order[order[FallbackKey].name].Sources? ==>
      r == order[order[FallbackKey].name].sources
    ensures language !in order && order[FallbackKey].name !in order ==> r == []
  {
    if language in order then Walk(order[language])
    else if order[FallbackKey].name in order then Walk(order[order[FallbackKey].name])
    else []
  }

  /** `contribution.get(source, {}).get(key)` for a source the contribution
      does not hold (None) or holds as an object. The source raises on a
      held source that is not an object; `ReachedAreObjects` keeps the
      lookup away from those, and this function gives them None. */
  function SourceValue(contribution: Record, source: string, key: string): Value
  {
    if source in contribution && contribution[source].Obj?
    then Get(contribution[source].fields, key)
    else Null
  }

  /** The loop reads the sources up to and including the first one with a
      non-empty value, and each of those that the contribution holds is an
      object, so the loop does not raise. Sources after that first hit are
      never read and may hold anything. */
  predicate ReachedAreObjects(contribution: Record, sources: seq<string>, key: string)
    decreases |sources|
  {
    sources != [] ==>
      && (sources[0] in contribution ==> contribution[sources[0]].Obj?)
      && (!Truthy(SourceValue(contribution, sources[0], key)) ==> ReachedAreObjects(contribution, sources[1..], key))
  }

  /** Every source of the list that the contribution holds is an object. */
  predicate SourcesAreObjects(contribution: Record, sources: seq<string>)
  {
    forall s :: s in sources && s in contribution ==> contribution[s].Obj?
  }

  /** When every held source is an object, the lookup can read any of them. */
  lemma {:induction false} ObjectsAreReached(contribution: Record, sources: seq<string>, key: string)
    requires SourcesAreObjects(contribution, sources)
    ensures ReachedAreObjects(contribution, sources, key)
  {
    if sources != [] {
      assert sources[0] in sources;
      assert SourcesAreObjects(contribution, sources[1..]) by {
        forall s | s in sources[1..] ensures s in sources { }
      }
      ObjectsAreReached(contribution, sources[1..], key);
    }
  }

  /** `sources[i]` is the first source holding a non-empty value for `key`. */
  predicate FirstHit(contribution: Record, sources: seq<string>, key: string, i: int)
  {
    && 0 <= i < |sources|
    && Truthy(SourceValue(contribution, sources[i], key))
    && forall j :: 0 <= j < i ==> !Truthy(SourceValue(contribution, sources[j], key))
  }

  /** The value of the first source that has a non-empty value for `key`. */
  function FirstValue(contribution: Record, sources: seq<string>, key: string): (r: Option<Value>)
    requires ReachedAreObjects(contribution, sources, key)
    ensures r.None? <==> forall i :: 0 <= i < |sources| ==> !Truthy(SourceValue(contribution, sources[i], key))
    ensures r.Some? ==> exists i :: FirstHit(contribution, sources, key, i) &&
                                    r.value == SourceValue(contribution, sources[i], key)
  {
    if sources == [] then None
    else if Truthy(SourceValue(contribution, sources[0], key)) then
      assert FirstHit(contribution, sources, key, 0);
      Some(SourceValue(contribution, sources[0], key))
    else
      var r := FirstValue(contribution, sources[1..], key);
      if r.Some? then
        ghost var i :| FirstHit(contribution, sources[1..], key, i) &&
                       r.value == SourceValue(contribution, sources[1..][i], key);
        assert FirstHit(contribution, sources, key, i + 1);
        r
      else
        r
  }

  /** `get_contribution_localized_value`: the first non-empty value of `key`
      among the sources configured for the language, else the contribution's
      own value of `key`. */
  function LocalizedValue(contribution: Record, key: string, language: string, order: LabelOrder): (r: Value)
    requires HasFallback(order)
    requires ReachedAreObjects(contribution, SourceOrder(order, language), key)
    ensures forall i :: FirstHit(contribution, SourceOrder(order, language), key, i) ==>
      r == SourceValue(contribution, SourceOrder(order, language)[i], key)
    ensures (forall s | s in SourceOrder(order, language) :: !Truthy(SourceValue(contribution, s, key))) ==>
      r == Get(contribution, key)
  {
    var sources := SourceOrder(order, language);
    match FirstValue(contribution, sources, key)
    case Some(v) =>
      ghost var i :| FirstHit(contribution, sources, key, i) && v == SourceValue(contribution, sources[i], key);
      FirstHitUnique(contribution, sources, key, i);
      v
    case None =>
      assert forall s | s in sources :: !Truthy(SourceValue(contribution, s, key));
      Get(contribution, key)
  }

  /** At most one position is the first hit. */
  lemma FirstHitUnique(contribution: Record, sources: seq<string>, key: string, i: int)
    requires FirstHit(contribution, sources, key, i)
    ensures forall j :: FirstHit(contribution, sources, key, j) ==> j == i
  {
  }

  /** Once a source has a non-empty value, the sources after it are never
      read: they may hold anything, even values that are not objects, and
      they do not affect the result. */
  lemma {:induction false} LaterSourcesIgnored(contribution: Record, head: seq<string>, tail1: seq<string>, tail2: seq<string>, key: string)
    requires ReachedAreObjects(contribution, head + tail1, key)
    requires exists s :: s in head && Truthy(SourceValue(contribution, s, key))
    ensures ReachedAreObjects(contribution, head + tail2, key)
    ensures FirstValue(contribution, head + tail1, key) == FirstValue(contribution, head + tail2, key)
  {
    var s :| s in head && Truthy(SourceValue(contribution, s, key));
    assert head[0] in head;
    assert (head + tail1)[0] == head[0] && (head + tail2)[0] == head[0];
    if !Truthy(SourceValue(contribution, head[0], key)) {
      var rest := head[1..];
      assert s in rest;
      assert (head + tail1)[1..] == rest + tail1;
      assert (head + tail2)[1..] == rest + tail2;
      LaterSourcesIgnored(contribution, rest, tail1, tail2, key);
    }
  }

  /** A source after the first hit that is not an object is never read: with
      `idref` holding the name and `gnd` holding a bare string, the lookup
      returns the `idref` name. */
  lemma NonObjectAfterHitIsNotRead()
    ensures var contribution := map["idref" := Obj(map["name" := Str("A")]), "gnd" := Str("x")];
            var order := map[FallbackKey := Language("fr"), "fr" := Sources(["idref", "gnd"])];
            && !SourcesAreObjects(contribution, SourceOrder(order, "fr"))
            && ReachedAreObjects(contribution, SourceOrder(order, "fr"), "name")
            && LocalizedValue(contribution, "name", "fr", order) == Str("A")
  {
    var contribution := map["idref" := Obj(map["name" := Str("A")]), "gnd" := Str("x")];
    var order := map[FallbackKey := Language("fr"), "fr" := Sources(["idref", "gnd"])];
    assert SourceOrder(order, "fr") == ["idref", "gnd"];
    assert Truthy(SourceValue(contribution, "idref", "name"));
    assert FirstHit(contribution, ["idref", "gnd"], "name", 0);
  }

  /** A language missing from the configuration is served like the fallback
      language. */
  lemma UnknownLanguageUsesFallback(contribution: Record, key: string, language: string, order: LabelOrder)
    requires HasFallback(order) && language !in order
    requires ReachedAreObjects(contribution, SourceOrder(order, language), key)
    ensures order[FallbackKey].name in order ==>
      LocalizedValue(contribution, key, language, order) ==
      LocalizedValue(contribution, key, order[FallbackKey].name, order)
    ensures order[FallbackKey].name !in order ==>
      LocalizedValue(contribution, key, language, order) == Get(contribution, key)
  {
  }
}
