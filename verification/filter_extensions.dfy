/** The file dialog filters of app/lib/util/filter-extensions.js: a constant
    table from file type keys to filters, and `getFilters`, which looks up a
    type or a list of types. */
module FilterExtensions {
  import opened Wrappers

  /** A dialog filter. `name` is the translation key whose translation the
      dialog shows. */
  datatype Filter = Filter(name: string, extensions: seq<string>)

  /** `EXTENSIONS` */
  const Extensions: map<string, Filter> := map[
    "all" := Filter("extensions.all.name", ["*"]),
    "supported" := Filter("extensions.supported.name", ["bpmn", "dmn", "cmmn", "xml"]),
    "images" := Filter("extensions.images.name", ["png", "jpeg", "svg"]),
    "bpmn" := Filter("extensions.bpmn.name", ["bpmn", "xml"]),
    "dmn" := Filter("extensions.dmn.name", ["dmn", "xml"]),
    "cmmn" := Filter("extensions.cmmn.name", ["cmmn", "xml"]),
    "png" := Filter("extensions.png.name", ["png"]),
    "jpeg" := Filter("extensions.jpeg.name", ["jpeg"]),
    "svg" := Filter("extensions.svg.name", ["svg"])
  ]

  /** The argument of `getFilters`: a single type or a list of them. */
  datatype FileTypes = OneType(fileType: string) | TypeList(fileTypes: seq<string>)

  /** A single type is treated as the list holding just it. */
  function AsList(types: FileTypes): (r: seq<string>)
    ensures types.OneType? ==> r == [types.fileType]
    ensures types.TypeList? ==> r == types.fileTypes
  {
    match types
    case OneType(t) => [t]
    case TypeList(ts) => ts
  }

  /** `EXTENSIONS[fileType]`: the filter, or `undefined` for an unknown key. */
  function Lookup(fileType: string): (r: Option<Filter>)
    ensures r.Some? <==> fileType in Extensions
    ensures r.Some? ==> r.value == Extensions[fileType]
  {
    if fileType in Extensions then Some(Extensions[fileType]) else None
  }

  /** `map(types, t => EXTENSIONS[t])`: one entry per type, in order. */
  function FilterList(types: seq<string>): (r: seq<Option<Filter>>)
    ensures |r| == |types|
    ensures forall i :: 0 <= i < |types| ==> r[i] == Lookup(types[i])
    decreases |types|
  {
    if |types| == 0 then [] else [Lookup(types[0])] + FilterList(types[1..])
  }

  /** `getFilters`: the filters for each type, in order, an unknown type
      giving an absent entry rather than an error. */
  function GetFilters(types: FileTypes): (r: seq<Option<Filter>>)
    ensures |r| == |AsList(types)|
    ensures forall i :: 0 <= i < |r| ==> (r[i].Some? <==> AsList(types)[i] in Extensions)
    ensures forall i :: 0 <= i < |r| && r[i].Some? ==> r[i].value == Extensions[AsList(types)[i]]
  {
    FilterList(AsList(types))
  }

  /** Asking for one type is asking for the one-element list of it. */
  lemma SingleTypeIsOneElementList(fileType: string)
    ensures GetFilters(OneType(fileType)) == GetFilters(TypeList([fileType]))
    ensures GetFilters(OneType(fileType)) == [Lookup(fileType)]
  {
  }

  /** Filters of concatenated lists are the concatenated filters. */
  lemma {:induction false} FiltersOfConcatenation(a: seq<string>, b: seq<string>)
    ensures GetFilters(TypeList(a + b)) == GetFilters(TypeList(a)) + GetFilters(TypeList(b))
  {
    var l := FilterList(a + b);
    var r := FilterList(a) + FilterList(b);
    assert |l| == |r|;
    forall i | 0 <= i < |l| ensures l[i] == r[i] {
      if i < |a| {
        assert (a + b)[i] == a[i];
      } else {
        assert (a + b)[i] == b[i - |a|];
      }
    }
  }

  /** The diagram filters accept their own extension and "xml", and every
      extension they accept is among the supported ones. */
  lemma DiagramFiltersAreSupported()
    ensures forall t :: t in ["bpmn", "dmn", "cmmn"] ==>
      t in Extensions && t in Extensions[t].extensions && "xml" in Extensions[t].extensions
    ensures forall t, x :: t in ["bpmn", "dmn", "cmmn"] && x in Extensions[t].extensions ==>
      x in Extensions["supported"].extensions
  {
  }

  /** The image filter accepts exactly what the png, jpeg and svg filters
      accept, in that order, and the catch-all filter accepts only "*". */
  lemma ImageAndCatchAllFilters()
    ensures Extensions["images"].extensions ==
      Extensions["png"].extensions + Extensions["jpeg"].extensions + Extensions["svg"].extensions
    ensures Extensions["all"].extensions == ["*"]
  {
  }
}
