/** The Overpass lookup of tourist attractions: the extraction of names from
    the decoded response of `get_tourist_attractions`. */
module PlacesRepo {
  import opened Wrappers
  import opened Json

  /** What one element contributes: `Some(Some(name))` when it has tags with a
      name, `Some(None)` when it contributes nothing, and `None` when the test
      `"tags" in element and "name" in element["tags"]` or the lookup raises. */
  function ElementName(element: Json): Option<Option<Json>> {
    match Includes(element, "tags")
    case None => None
    case Some(hasTags) =>
      if !hasTags then Some(None)
      else
        match Index(element, "tags")
        case None => None
        case Some(tags) =>
          match Includes(tags, "name")
          case None => None
          case Some(hasName) =>
            if !hasName then Some(None)
            else
              match Index(tags, "name")
              case None => None
              case Some(name) => Some(Some(name))
  }

  /** The names of a sequence of elements in order, or `None` as soon as one
      element raises. */
  function NamesOf(elements: seq<Json>): Option<seq<Json>> {
    if |elements| == 0 then Some([])
    else
      match NamesOf(elements[..|elements| - 1])
      case None => None
      case Some(names) =>
        match ElementName(elements[|elements| - 1])
        case None => None
        case Some(None) => Some(names)
        case Some(Some(name)) => Some(names + [name])
  }

  /** The list `get_tourist_attractions` builds from the decoded response
      `data`, or `None` when building it raises. */
  function AttractionNames(data: Json): Option<seq<Json>> {
    match Includes(data, "elements")
    case None => None
    case Some(hasElements) =>
      if !hasElements then Some([])
      else
        match Index(data, "elements")
        case None => None
        case Some(elements) =>
          match Iterate(elements)
          case None => None
          case Some(items) => NamesOf(items)
  }

  /** `get_tourist_attractions` after the HTTP call: `response` is the decoded
      body, or `None` when the request or `response.json()` raised. Every
      failure gives the empty list. */
  method GetTouristAttractions(response: Option<Json>) returns (places: seq<Json>)
    ensures places == match response
      case None => []
      case Some(data) => AttractionNames(data).GetOr([])
  {
    if response.None? {
      return [];
    }
    var data := response.value;
    places := [];
    var hasElements := Includes(data, "elements");
    if hasElements.None? {
      return [];
    }
    if hasElements.value {
      var elementsValue := Index(data, "elements");
      if elementsValue.None? {
        return [];
      }
      var visited := Iterate(elementsValue.value);
      if visited.None? {
        return [];
      }
      var elements := visited.value;
      var i := 0;
      while i < |elements|
        invariant 0 <= i <= |elements|
        invariant NamesOf(elements[..i]) == Some(places)
      {
        assert elements[..i + 1][..i] == elements[..i];
        var contribution := ElementName(elements[i]);
        if contribution.None? {
          RaisingPrefix(elements, i + 1);
          return [];
        }
        if contribution.value.Some? {
          places := places + [contribution.value.value];
        }
        i := i + 1;
      }
      assert elements[..i] == elements;
    }
  }

  /** Once a prefix raises, the whole sequence does. */
  lemma {:induction false} RaisingPrefix(elements: seq<Json>, n: nat)
    requires n <= |elements| && NamesOf(elements[..n]).None?
    ensures NamesOf(elements).None?
    decreases |elements| - n
  {
    if n < |elements| {
      var longer := elements[..n + 1];
      assert longer[..n] == elements[..n];
      RaisingPrefix(elements, n + 1);
    } else {
      assert elements[..n] == elements;
    }
  }

  /** Names of a concatenation are the names of the parts, in order. */
  lemma {:induction false} NamesOfAppend(a: seq<Json>, b: seq<Json>)
    requires NamesOf(a).Some? && NamesOf(b).Some?
    ensures NamesOf(a + b) == Some(NamesOf(a).value + NamesOf(b).value)
  {
    if |b| == 0 {
      assert a + b == a;
      assert NamesOf(a).value + [] == NamesOf(a).value;
    } else {
      var b' := b[..|b| - 1];
      assert (a + b)[..|a + b| - 1] == a + b';
      assert (a + b)[|a + b| - 1] == b[|b| - 1];
      assert NamesOf(b').Some?;
      NamesOfAppend(a, b');
      var na, nb' := NamesOf(a).value, NamesOf(b').value;
      match ElementName(b[|b| - 1])
      case None =>
      case Some(None) =>
      case Some(Some(name)) => assert na + nb' + [name] == na + (nb' + [name]);
    }
  }

  /** A single element contributes its name, or nothing. */
  lemma NamesOfOne(e: Json)
    ensures NamesOf([e]) == match ElementName(e)
      case None => None
      case Some(None) => Some([])
      case Some(Some(name)) => Some([name])
  {
    assert [e][..0] == [];
    assert NamesOf([]) == Some([]);
    match ElementName(e)
    case None =>
    case Some(None) =>
    case Some(Some(name)) => assert [] + [name] == [name];
  }

  /** There are never more names than elements. */
  lemma {:induction false} NamesBounded(elements: seq<Json>)
    requires NamesOf(elements).Some?
    ensures |NamesOf(elements).value| <= |elements|
  {
    if |elements| > 0 {
      NamesBounded(elements[..|elements| - 1]);
    }
  }

  /** An object element without a `tags` key, or whose tags object lacks
      `name`, contributes nothing. */
  lemma ElementWithoutName(members: seq<(string, Json)>)
    requires Lookup(members, "tags").None? ||
      (Lookup(members, "tags").Some? && Lookup(members, "tags").value.JObj? &&
       Lookup(Lookup(members, "tags").value.members, "name").None?)
    ensures ElementName(JObj(members)) == Some(None)
  {
  }

  /** A response without an `elements` key yields no names. */
  lemma NoElementsKey(members: seq<(string, Json)>)
    requires Lookup(members, "elements").None?
    ensures AttractionNames(JObj(members)) == Some([])
  {
  }

  /** Duplicate names are kept: there is no de-duplication. */
  lemma DuplicatesKept()
    ensures
      var tagged := JObj([("tags", JObj([("name", JStr("Louvre"))]))]);
      AttractionNames(JObj([("elements", JArr([tagged, tagged]))])) == Some([JStr("Louvre"), JStr("Louvre")])
  {
    var tagged := JObj([("tags", JObj([("name", JStr("Louvre"))]))]);
    var elements := [tagged, tagged];
    assert ElementName(tagged) == Some(Some(JStr("Louvre")));
    assert elements[..1] == [tagged];
    NamesOfOne(tagged);
    assert NamesOf([tagged]) == Some([JStr("Louvre")]);
    assert elements[|elements| - 1] == tagged;
    assert NamesOf(elements) == Some([JStr("Louvre")] + [JStr("Louvre")]);
    var members := [("elements", JArr(elements))];
    assert Lookup(members, "elements") == Some(JArr(elements));
    assert Iterate(JArr(elements)) == Some(elements);
    assert Includes(JObj(members), "elements") == Some(true);
    assert AttractionNames(JObj(members)) == NamesOf(elements);
    assert [JStr("Louvre")] + [JStr("Louvre")] == [JStr("Louvre"), JStr("Louvre")];
  }
}
