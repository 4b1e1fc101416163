/**
 * The project list returned by the backend and its JSON coding.
 *
 * The backend serialises the list as a two-element array in Java's
 * type-tagged style, `["java.util.ArrayList", [ {project}, ... ]]`, so each
 * element is either a string or an array of projects. Decoding is modelled
 * over a small abstract JSON value; the synthesised Codable conformance of
 * `Project` reads and writes a keyed object whose `id` lives under the key
 * "projectId".
 */
module ProjectCodec {
  import opened Wrappers

  /** A JSON value. Numbers are integral only; objects are keyed maps. */
  datatype Json =
    | JNull
    | JBool(b: bool)
    | JNumber(n: int)
    | JString(s: string)
    | JArray(items: seq<Json>)
    | JObject(fields: map<string, Json>)

  /** Why a decode failed, in the words of Swift's DecodingError. `key` is
      the coding key whose value failed, or "" for the value being decoded
      itself. A number outside `Int`'s range is `dataCorrupted`. */
  datatype DecodeError =
    | TypeMismatch
    | KeyNotFound(key: string)
    | ValueNotFound(key: string)
    | DataCorrupted(key: string)

  const IntMin: int := -0x8000_0000_0000_0000
  const IntMax: int := 0x7FFF_FFFF_FFFF_FFFF

  /** Swift's `Int` on the 64-bit targets the app runs on. */
  newtype Int64 = x: int | -0x8000_0000_0000_0000 <= x <= 0x7FFF_FFFF_FFFF_FFFF

  datatype Project = Project(id: Int64, projectName: string, description: string, createdAt: string)

  /** The JSON key of each stored property (the CodingKeys enum). */
  const IdKey: string := "projectId"
  const NameKey: string := "projectName"
  const DescriptionKey: string := "description"
  const CreatedAtKey: string := "createdAt"

  predicate IsProjectKey(k: string) {
    k == IdKey || k == NameKey || k == DescriptionKey || k == CreatedAtKey
  }

  datatype ProjectArrayItem = StringItem(s: string) | ProjectArray(projects: seq<Project>)

  datatype ProjectResponse = ProjectResponse(projects: seq<ProjectArrayItem>)

  const ProjectsKey: string := "projects"

  // ---------------------------------------------------------------- Project

  /** The synthesised `encode(to:)`: an object with exactly the four coding keys. */
  function EncodeProject(p: Project): (j: Json)
    ensures j.JObject? && j.fields.Keys == {IdKey, NameKey, DescriptionKey, CreatedAtKey}
    ensures forall k | k in j.fields :: IsProjectKey(k)
  {
    JObject(map[IdKey := JNumber(p.id as int),
                NameKey := JString(p.projectName),
                DescriptionKey := JString(p.description),
                CreatedAtKey := JString(p.createdAt)])
  }

  /** `decode(Int.self, forKey: k)`: null is `valueNotFound`, a number out of
      range `dataCorrupted`, any other non-number `typeMismatch`. */
  function DecodeInt(j: Json, k: string): (r: Result<Int64, DecodeError>) {
    match j
    case JNull => Err(ValueNotFound(k))
    case JNumber(n) => if IntMin <= n <= IntMax then Ok(n as Int64) else Err(DataCorrupted(k))
    case _ => Err(TypeMismatch)
  }

  /** `decode(String.self, forKey: k)`: null is `valueNotFound`. */
  function DecodeString(j: Json, k: string): (r: Result<string, DecodeError>) {
    match j
    case JNull => Err(ValueNotFound(k))
    case JString(s) => Ok(s)
    case _ => Err(TypeMismatch)
  }

  /** Looks a key up in a keyed container; a missing key is `keyNotFound`. */
  function Field(m: map<string, Json>, k: string): (r: Result<Json, DecodeError>) {
    if k in m then Ok(m[k]) else Err(KeyNotFound(k))
  }

  function DecodeIdField(m: map<string, Json>): (r: Result<Int64, DecodeError>) {
    match Field(m, IdKey)
    case Err(e) => Err(e)
    case Ok(j) => DecodeInt(j, IdKey)
  }

  function DecodeStringField(m: map<string, Json>, k: string): (r: Result<string, DecodeError>) {
    match Field(m, k)
    case Err(e) => Err(e)
    case Ok(j) => DecodeString(j, k)
  }

  /** The synthesised `Project.init(from:)`: the four keys in declaration order. */
  function DecodeProject(j: Json): (r: Result<Project, DecodeError>)
    ensures r.Ok? ==> j.JObject? && IdKey in j.fields && j.fields[IdKey] == JNumber(r.value.id as int)
    ensures j.JObject? && IdKey !in j.fields ==> r == Err(KeyNotFound(IdKey))
    ensures !j.JObject? ==> r.Err?
  {
    match j
    case JObject(m) =>
      (match DecodeIdField(m)
       case Err(e) => Err(e)
       case Ok(id) =>
         match DecodeStringField(m, NameKey)
         case Err(e) => Err(e)
         case Ok(name) =>
           match DecodeStringField(m, DescriptionKey)
           case Err(e) => Err(e)
           case Ok(desc) =>
             match DecodeStringField(m, CreatedAtKey)
             case Err(e) => Err(e)
             case Ok(created) => Ok(Project(id, name, desc, created)))
    case JNull => Err(ValueNotFound(""))
    case _ => Err(TypeMismatch)
  }

  /** The decoded project id is the number stored under "projectId", and every
      other field under its own name. */
  lemma DecodeProjectReadsKeys(j: Json, p: Project)
    requires DecodeProject(j) == Ok(p)
    ensures j.JObject?
    ensures IdKey in j.fields && j.fields[IdKey] == JNumber(p.id as int)
    ensures NameKey in j.fields && j.fields[NameKey] == JString(p.projectName)
    ensures DescriptionKey in j.fields && j.fields[DescriptionKey] == JString(p.description)
    ensures CreatedAtKey in j.fields && j.fields[CreatedAtKey] == JString(p.createdAt)
  {
  }

  /** Keys that are not coding keys (among them a plain "id") are ignored. */
  lemma DecodeProjectIgnoresOtherKeys(m: map<string, Json>, k: string, v: Json)
    requires !IsProjectKey(k)
    ensures DecodeProject(JObject(m[k := v])) == DecodeProject(JObject(m))
  {
    assert Field(m[k := v], IdKey) == Field(m, IdKey);
    assert Field(m[k := v], NameKey) == Field(m, NameKey);
    assert Field(m[k := v], DescriptionKey) == Field(m, DescriptionKey);
    assert Field(m[k := v], CreatedAtKey) == Field(m, CreatedAtKey);
  }

  /** An object without "projectId" is rejected, whatever else it holds. */
  lemma DecodeProjectNeedsId(m: map<string, Json>)
    requires IdKey !in m
    ensures DecodeProject(JObject(m)) == Err(KeyNotFound(IdKey))
  {
  }

  /** A null "projectId" is `valueNotFound` for that key, and an id outside
      `Int`'s range is `dataCorrupted` for it, whatever the other fields hold. */
  lemma DecodeProjectIdErrors(m: map<string, Json>, n: int)
    requires n < IntMin || IntMax < n
    ensures DecodeProject(JObject(m[IdKey := JNull])) == Err(ValueNotFound(IdKey))
    ensures DecodeProject(JObject(m[IdKey := JNumber(n)])) == Err(DataCorrupted(IdKey))
  {
  }

  /** Once the id decodes, a null name, description or creation date is
      `valueNotFound` for the first such key in declaration order. */
  lemma DecodeProjectNullStringField(m: map<string, Json>, k: string)
    requires DecodeIdField(m).Ok?
    requires k == NameKey || k == DescriptionKey || k == CreatedAtKey
    requires k in m && m[k] == JNull
    requires k != NameKey ==> DecodeStringField(m, NameKey).Ok?
    requires k == CreatedAtKey ==> DecodeStringField(m, DescriptionKey).Ok?
    ensures DecodeProject(JObject(m)) == Err(ValueNotFound(k))
  {
  }

  lemma ProjectRoundTrip(p: Project)
    ensures DecodeProject(EncodeProject(p)) == Ok(p)
  {
    var m := EncodeProject(p).fields;
    assert m[IdKey] == JNumber(p.id as int);
    assert m[NameKey] == JString(p.projectName);
    assert m[DescriptionKey] == JString(p.description);
    assert m[CreatedAtKey] == JString(p.createdAt);
  }

  // ------------------------------------------------------- [Project] arrays

  function EncodeProjectSeq(ps: seq<Project>): (r: seq<Json>)
    ensures |r| == |ps|
    ensures forall i :: 0 <= i < |ps| ==> r[i] == EncodeProject(ps[i])
  {
    if ps == [] then [] else [EncodeProject(ps[0])] + EncodeProjectSeq(ps[1..])
  }

  /** Decodes array elements in order; the first failing element fails the whole array. */
  function DecodeProjectSeq(items: seq<Json>): (r: Result<seq<Project>, DecodeError>)
    ensures r.Ok? <==> forall i :: 0 <= i < |items| ==> DecodeProject(items[i]).Ok?
    ensures r.Ok? ==> |r.value| == |items|
    ensures r.Ok? ==> forall i :: 0 <= i < |items| ==> DecodeProject(items[i]) == Ok(r.value[i])
  {
    if items == [] then Ok([])
    else
      match DecodeProject(items[0])
      case Err(e) => Err(e)
      case Ok(p) =>
        match DecodeProjectSeq(items[1..])
        case Err(e) => Err(e)
        case Ok(ps) => Ok([p] + ps)
  }

  /** `decode([Project].self)`: an array whose every element decodes as a project. */
  function DecodeProjects(j: Json): (r: Result<seq<Project>, DecodeError>)
    ensures !j.JArray? ==> r == Err(TypeMismatch)
    ensures r.Ok? ==> j.JArray? && |r.value| == |j.items|
    ensures r.Ok? ==> forall i :: 0 <= i < |j.items| ==> DecodeProject(j.items[i]) == Ok(r.value[i])
    ensures j.JArray? ==> (r.Ok? <==> forall i :: 0 <= i < |j.items| ==> DecodeProject(j.items[i]).Ok?)
  {
    match j
    case JArray(items) => DecodeProjectSeq(items)
    case _ => Err(TypeMismatch)
  }

  function EncodeProjects(ps: seq<Project>): (j: Json)
    ensures j.JArray? && |j.items| == |ps|
  {
    JArray(EncodeProjectSeq(ps))
  }

  lemma ProjectsRoundTrip(ps: seq<Project>)
    ensures DecodeProjects(EncodeProjects(ps)) == Ok(ps)
  {
    ProjectSeqRoundTrip(ps);
  }

  lemma {:induction false} ProjectSeqRoundTrip(ps: seq<Project>)
    ensures DecodeProjectSeq(EncodeProjectSeq(ps)) == Ok(ps)
  {
    if ps != [] {
      var items := EncodeProjectSeq(ps);
      ProjectRoundTrip(ps[0]);
      assert items[1..] == EncodeProjectSeq(ps[1..]);
      ProjectSeqRoundTrip(ps[1..]);
      assert [ps[0]] + ps[1..] == ps;
    }
  }

  // ------------------------------------------------------ ProjectArrayItem

  /** `ProjectArrayItem.init(from:)`: a string first, then `[Project]`, else
      typeMismatch. An item is accepted exactly when the value is a string or
      an array of decodable projects, and a decoded item reflects its input:
      a `.string` item came from that very string, and a `.projectArray`
      came from an array with one element per project, each decoding to it. */
  function DecodeItem(j: Json): (r: Result<ProjectArrayItem, DecodeError>)
    ensures r.Ok? <==> j.JString? || (j.JArray? && forall i :: 0 <= i < |j.items| ==> DecodeProject(j.items[i]).Ok?)
    ensures r.Ok? && r.value.StringItem? ==> j == JString(r.value.s)
    ensures r.Ok? && r.value.ProjectArray? ==> j.JArray? && |j.items| == |r.value.projects|
    ensures r.Ok? && r.value.ProjectArray? ==>
      forall i :: 0 <= i < |j.items| ==> DecodeProject(j.items[i]) == Ok(r.value.projects[i])
    ensures r.Err? ==> r.error == TypeMismatch
  {
    match DecodeString(j, "")
    case Ok(s) => Ok(StringItem(s))
    case Err(_) =>
      match DecodeProjects(j)
      case Ok(ps) => Ok(ProjectArray(ps))
      case Err(_) => Err(TypeMismatch)
  }

  /** `ProjectArrayItem.encode(to:)`: a bare string or a bare array. */
  function EncodeItem(x: ProjectArrayItem): (j: Json)
    ensures x.StringItem? <==> j.JString?
    ensures x.StringItem? ==> j.s == x.s
    ensures x.ProjectArray? ==> j.JArray? && |j.items| == |x.projects|
  {
    match x
    case StringItem(s) => JString(s)
    case ProjectArray(ps) => EncodeProjects(ps)
  }

  lemma ItemRoundTrip(x: ProjectArrayItem)
    ensures DecodeItem(EncodeItem(x)) == Ok(x)
  {
    if x.ProjectArray? {
      ProjectSeqRoundTrip(x.projects);
    }
  }

  /** Values that are neither strings nor arrays are never items. */
  lemma ScalarsAreNotItems(j: Json)
    requires j.JNull? || j.JBool? || j.JNumber? || j.JObject?
    ensures DecodeItem(j) == Err(TypeMismatch)
  {
  }

  // ------------------------------------------------------- ProjectResponse

  function DecodeItemSeq(items: seq<Json>): (r: Result<seq<ProjectArrayItem>, DecodeError>)
    ensures r.Ok? <==> forall i :: 0 <= i < |items| ==> DecodeItem(items[i]).Ok?
    ensures r.Ok? ==> |r.value| == |items|
    ensures r.Ok? ==> forall i :: 0 <= i < |items| ==> DecodeItem(items[i]) == Ok(r.value[i])
  {
    if items == [] then Ok([])
    else
      match DecodeItem(items[0])
      case Err(e) => Err(e)
      case Ok(x) =>
        match DecodeItemSeq(items[1..])
        case Err(e) => Err(e)
        case Ok(xs) => Ok([x] + xs)
  }

  function EncodeItemSeq(xs: seq<ProjectArrayItem>): (r: seq<Json>)
    ensures |r| == |xs|
    ensures forall i :: 0 <= i < |xs| ==> r[i] == EncodeItem(xs[i])
  {
    if xs == [] then [] else [EncodeItem(xs[0])] + EncodeItemSeq(xs[1..])
  }

  /** The synthesised `ProjectResponse.init(from:)`: one key, "projects",
      holding an array with one decodable item per element. */
  function DecodeResponse(j: Json): (r: Result<ProjectResponse, DecodeError>)
    ensures r.Ok? ==> j.JObject? && ProjectsKey in j.fields && j.fields[ProjectsKey].JArray?
    ensures r.Ok? ==> |r.value.projects| == |j.fields[ProjectsKey].items|
    ensures r.Ok? ==> forall i :: 0 <= i < |r.value.projects| ==>
      DecodeItem(j.fields[ProjectsKey].items[i]) == Ok(r.value.projects[i])
    ensures j.JObject? && ProjectsKey !in j.fields ==> r == Err(KeyNotFound(ProjectsKey))
    ensures j.JObject? && ProjectsKey in j.fields && j.fields[ProjectsKey] == JNull ==>
      r == Err(ValueNotFound(ProjectsKey))
  {
    match j
    case JObject(m) =>
      (match Field(m, ProjectsKey)
       case Err(e) => Err(e)
       case Ok(JNull) => Err(ValueNotFound(ProjectsKey))
       case Ok(JArray(items)) =>
         (match DecodeItemSeq(items)
          case Err(e) => Err(e)
          case Ok(xs) => Ok(ProjectResponse(xs)))
       case Ok(_) => Err(TypeMismatch))
    case JNull => Err(ValueNotFound(""))
    case _ => Err(TypeMismatch)
  }

  /** The synthesized encoder: an object whose one key "projects" holds the items in order. */
  function EncodeResponse(r: ProjectResponse): (j: Json)
    ensures j.JObject? && j.fields.Keys == {ProjectsKey}
    ensures j.fields[ProjectsKey].JArray? && |j.fields[ProjectsKey].items| == |r.projects|
    ensures forall i :: 0 <= i < |r.projects| ==> j.fields[ProjectsKey].items[i] == EncodeItem(r.projects[i])
  {
    JObject(map[ProjectsKey := JArray(EncodeItemSeq(r.projects))])
  }

  lemma {:induction false} ItemSeqRoundTrip(xs: seq<ProjectArrayItem>)
    ensures DecodeItemSeq(EncodeItemSeq(xs)) == Ok(xs)
  {
    if xs != [] {
      var items := EncodeItemSeq(xs);
      ItemRoundTrip(xs[0]);
      assert items[1..] == EncodeItemSeq(xs[1..]);
      ItemSeqRoundTrip(xs[1..]);
      assert [xs[0]] + xs[1..] == xs;
    }
  }

  /** A null "projects" is `valueNotFound` for that key; other keys do not matter. */
  lemma ResponseNullProjects(m: map<string, Json>)
    ensures DecodeResponse(JObject(m[ProjectsKey := JNull])) == Err(ValueNotFound(ProjectsKey))
  {
  }

  lemma ResponseRoundTrip(r: ProjectResponse)
    ensures DecodeResponse(EncodeResponse(r)) == Ok(r)
  {
    ItemSeqRoundTrip(r.projects);
  }

  /** `ProjectResponse.projectList`: the array held in element 1, if any. */
  function ProjectList(resp: ProjectResponse): (ps: seq<Project>)
    ensures ps != [] ==> |resp.projects| >= 2 && resp.projects[1] == ProjectArray(ps)
  {
    if |resp.projects| <= 1 then []
    else match resp.projects[1]
      case ProjectArray(ps) => ps
      case StringItem(_) => []
  }

  /** Every project listed comes from the response: a non-empty list is
      exactly the payload of item 1, and a response made only of strings
      lists nothing. */
  lemma ProjectListSound(resp: ProjectResponse)
    ensures ProjectList(resp) != [] ==>
      |resp.projects| >= 2 && resp.projects[1] == ProjectArray(ProjectList(resp))
    ensures (forall i :: 0 <= i < |resp.projects| ==> resp.projects[i].StringItem?) ==> ProjectList(resp) == []
  {
  }


  /** Only element 1 matters: element 0 and everything after index 1 are ignored. */
  lemma ProjectListProjection(resp: ProjectResponse, first: ProjectArrayItem, rest: seq<ProjectArrayItem>)
    requires |resp.projects| >= 2
    ensures ProjectList(ProjectResponse([first, resp.projects[1]] + rest)) == ProjectList(resp)
  {
  }

  /** The backend's envelope decodes to exactly the projects it carries. */
  lemma {:induction false} EnvelopeYieldsProjects(tag: string, ps: seq<Project>)
    ensures var j := JObject(map[ProjectsKey := JArray([JString(tag), EncodeProjects(ps)])]);
      DecodeResponse(j).Ok? && ProjectList(DecodeResponse(j).value) == ps
  {
    var r := ProjectResponse([StringItem(tag), ProjectArray(ps)]);
    assert EncodeItemSeq(r.projects) == [JString(tag), EncodeProjects(ps)];
    ResponseRoundTrip(r);
  }
}
