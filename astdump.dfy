/** The astdump front end reads clang's JSON AST dump. This module covers how an entity's
    location, id and documentation comment are read from that JSON, the range check for
    unexposed entities, and how `parse_entity` handles comments and errors. */
module Astdump {

  // ---------------------------------------------------------------- the JSON document

  /** A JSON value as the parser sees it. Leaves keep their raw token, the exact source text of
      the value (quotes included for strings). */
  datatype Json =
    | Obj(fields: seq<Field>)
    | Arr(items: seq<Json>)
    | Str(text: string, raw: string)
    | Uint(n: nat, raw: string)     // a number that fits an unsigned 64-bit integer
    | Other(raw: string)            // any other scalar: true, false, null, other numbers

  datatype Field = Field(key: string, value: Json)

  /** The errors a lookup or a conversion reports, and the one the range check throws. */
  datatype Failure =
    | NoSuchField        // simdjson NO_SUCH_FIELD
    | IncorrectType      // simdjson INCORRECT_TYPE
    | InvalidRange       // std::invalid_argument("range is invalid")

  datatype Result<T> = Ok(value: T) | Err(error: Failure)

  datatype Option<T> = None | Some(value: T)

  /** A JSON failure is what simdjson throws; the invalid range is a logic error. */
  predicate IsJsonFailure(f: Failure) {
    f == NoSuchField || f == IncorrectType
  }

  /** The index of the first field named `key`, or -1. */
  function FieldIndex(fields: seq<Field>, key: string): (r: int)
    ensures -1 <= r < |fields|
    ensures r >= 0 ==> fields[r].key == key && forall j :: 0 <= j < r ==> fields[j].key != key
    ensures r == -1 <==> forall j :: 0 <= j < |fields| ==> fields[j].key != key
    decreases |fields|
  {
    if fields == [] then -1
    else
      var r := FieldIndex(fields[..|fields| - 1], key);
      if r >= 0 then r
      else if fields[|fields| - 1].key == key then |fields| - 1
      else -1
  }

  /** `object[key]`: the value of the first field named `key`. */
  function Lookup(fields: seq<Field>, key: string): (r: Result<Json>)
    ensures r == Err(NoSuchField) <==> forall j :: 0 <= j < |fields| ==> fields[j].key != key
    ensures r.Ok? ==> exists j :: 0 <= j < |fields| && fields[j] == Field(key, r.value)
  {
    var i := FieldIndex(fields, key);
    if i < 0 then Err(NoSuchField) else Ok(fields[i].value)
  }

  /** `get_string()`. */
  function AsString(r: Result<Json>): (s: Result<string>)
    ensures s.Ok? <==> r.Ok? && r.value.Str?
  {
    match r
    case Err(e) => Err(e)
    case Ok(Str(t, _)) => Ok(t)
    case Ok(_) => Err(IncorrectType)
  }

  /** `get_uint64()`. */
  function AsUint(r: Result<Json>): (n: Result<nat>)
    ensures n.Ok? <==> r.Ok? && r.value.Uint?
  {
    match r
    case Err(e) => Err(e)
    case Ok(Uint(k, _)) => Ok(k)
    case Ok(_) => Err(IncorrectType)
  }

  /** `raw_json_token()`: the exact text of a scalar value. The text of an object or array is not
      kept, so the model fails with a type error there. */
  function RawToken(r: Result<Json>): (t: Result<string>)
    ensures r.Ok? && r.value.Str? ==> t == Ok(r.value.raw)
    ensures r.Err? ==> t == Err(r.error)
    ensures r.Ok? && (r.value.Uint? || r.value.Other?) ==> t == Ok(r.value.raw)
    ensures r.Ok? && (r.value.Obj? || r.value.Arr?) ==> t == Err(IncorrectType)
  {
    match r
    case Err(e) => Err(e)
    case Ok(Str(_, raw)) => Ok(raw)
    case Ok(Uint(_, raw)) => Ok(raw)
    case Ok(Other(raw)) => Ok(raw)
    case Ok(_) => Err(IncorrectType)
  }

  // ---------------------------------------------------------------- locations and ids

  /** `get_actual_location`: a location produced by a macro expansion carries the actual
      location in its `expansionLoc` field; any other location is already the actual one. */
  function ActualLocation(location: seq<Field>): (r: Result<seq<Field>>)
    ensures Lookup(location, "expansionLoc") == Err(NoSuchField) ==> r == Ok(location)
    ensures Lookup(location, "expansionLoc").Ok? && Lookup(location, "expansionLoc").value.Obj?
            ==> r == Ok(Lookup(location, "expansionLoc").value.fields)
    ensures r.Err? <==> Lookup(location, "expansionLoc").Ok? && !Lookup(location, "expansionLoc").value.Obj?
  {
    match Lookup(location, "expansionLoc")
    case Err(_) => Ok(location)
    case Ok(Obj(sub)) => Ok(sub)
    case Ok(_) => Err(IncorrectType)
  }

  /** `get_entity_id(context, tu_id)`: a translation-unit id made global by prefixing the path of
      the file being parsed. */
  function GlobalId(path: string, tuId: string): (id: string)
    ensures |id| == |path| + |tuId| && id[..|path|] == path && id[|path|..] == tuId
  {
    path + tuId
  }

  /** Within one file, different translation-unit ids give different global ids. */
  lemma GlobalIdInjective(path: string, a: string, b: string)
    requires GlobalId(path, a) == GlobalId(path, b)
    ensures a == b
  {
    assert a == GlobalId(path, a)[|path|..];
  }

  /** The translation-unit id of an entity: the raw `previousDecl` token when the field exists,
      so that every redeclaration uses the id of the first declaration; otherwise its own `id`. */
  function TuId(entity: seq<Field>): (r: Result<string>)
    ensures Lookup(entity, "previousDecl") != Err(NoSuchField) ==> r == RawToken(Lookup(entity, "previousDecl"))
    ensures Lookup(entity, "previousDecl") == Err(NoSuchField) ==> r == RawToken(Lookup(entity, "id"))
  {
    var previousDecl := Lookup(entity, "previousDecl");
    if previousDecl != Err(NoSuchField) then RawToken(previousDecl) else RawToken(Lookup(entity, "id"))
  }

  /** `get_entity_id(context, entity)`. */
  function EntityId(path: string, entity: seq<Field>): (r: Result<string>)
    ensures r.Ok? <==> TuId(entity).Ok?
    ensures r.Ok? ==> r.value == GlobalId(path, TuId(entity).value)
  {
    match TuId(entity)
    case Err(e) => Err(e)
    case Ok(t) => Ok(GlobalId(path, t))
  }

  /** A declaration and a later redeclaration of it (whose `previousDecl` is the first one's `id`)
      get the same global id; so do two redeclarations of the same declaration. */
  lemma RedeclarationsShareId(path: string, first: seq<Field>, later: seq<Field>)
    requires Lookup(first, "previousDecl") == Err(NoSuchField)
    requires Lookup(later, "previousDecl").Ok? && Lookup(first, "id").Ok?
    requires Lookup(later, "previousDecl").value.Str? && Lookup(first, "id").value.Str?
    requires Lookup(later, "previousDecl").value.raw == Lookup(first, "id").value.raw
    ensures EntityId(path, first).Ok? && EntityId(path, first) == EntityId(path, later)
  {
  }

  // ---------------------------------------------------------------- comments

  /** A text line of a comment loses at most one leading space or tab. */
  function StripLead(text: string): (r: string)
    ensures |text| > 0 && (text[0] == ' ' || text[0] == '\t') ==> r == text[1..]
    ensures !(|text| > 0 && (text[0] == ' ' || text[0] == '\t')) ==> r == text
  {
    if |text| > 0 && (text[0] == ' ' || text[0] == '\t') then text[1..] else text
  }

  /** `parse_comment`: the text of a comment node, or the error that aborts it. */
  function CommentText(entity: Json): Result<string>
    decreases entity, 0
  {
    match entity
    case Obj(fields) =>
      var i := FieldIndex(fields, "inner");
      if i < 0 then Err(NoSuchField)
      else
        (match fields[i].value
         case Arr(items) => CommentUpTo(items, |items|)
         case _ => Err(IncorrectType))
    case _ => Err(IncorrectType)
  }

  /** The result after the first `n` children of a comment node. */
  function CommentUpTo(items: seq<Json>, n: nat): Result<string>
    requires n <= |items|
    decreases items, n
  {
    if n == 0 then Ok("")
    else
      match CommentUpTo(items, n - 1)
      case Err(e) => Err(e)
      case Ok(acc) => ChildStep(acc, items[n - 1])
  }

  /** One child: a paragraph is flattened and appended as it is; any other child contributes
      its text, on a new line unless nothing has been written yet. */
  function ChildStep(acc: string, child: Json): Result<string>
    decreases child, 1
  {
    match child
    case Obj(fields) =>
      (match AsString(Lookup(fields, "kind"))
       case Err(e) => Err(e)
       case Ok(kind) =>
         if kind == "ParagraphComment" then
           (match CommentText(child)
            case Err(e) => Err(e)
            case Ok(t) => Ok(acc + t))
         else
           (match AsString(Lookup(fields, "text"))
            case Err(e) => Err(e)
            case Ok(text) => Ok(acc + (if acc != "" then "\n" else "") + StripLead(text))))
    case _ => Err(IncorrectType)
  }

  /** Once a child fails, the whole comment fails with that error. */
  lemma {:induction false} CommentErrorSticks(items: seq<Json>, k: nat, n: nat)
    requires k <= n <= |items| && CommentUpTo(items, k).Err?
    ensures CommentUpTo(items, n) == CommentUpTo(items, k)
    decreases n - k
  {
    if k < n {
      CommentErrorSticks(items, k, n - 1);
    }
  }

  /** A child object whose `kind` and `text` fields read as the strings `kind` and `text`,
      whatever other fields (`id`, `range`, ...) it carries. */
  predicate IsTextChild(child: Json, kind: string, text: string) {
    child.Obj? && AsString(Lookup(child.fields, "kind")) == Ok(kind) && AsString(Lookup(child.fields, "text")) == Ok(text)
  }

  /** The texts of the children, each stripped of one leading blank. */
  function Stripped(texts: seq<string>): (r: seq<string>)
    ensures |r| == |texts| && forall i :: 0 <= i < |texts| ==> r[i] == StripLead(texts[i])
    decreases |texts|
  {
    if texts == [] then [] else Stripped(texts[..|texts| - 1]) + [StripLead(texts[|texts| - 1])]
  }

  /** A comment made of text children whose stripped texts are non-empty is those texts, one per
      line: the separator is written between consecutive texts and nowhere else. */
  lemma {:induction false} TextChildrenJoin(items: seq<Json>, kinds: seq<string>, texts: seq<string>, n: nat)
    requires |items| == |kinds| == |texts| && n <= |texts|
    requires forall i :: 0 <= i < |items| ==> IsTextChild(items[i], kinds[i], texts[i])
    requires forall i :: 0 <= i < |kinds| ==> kinds[i] != "ParagraphComment"
    requires forall i :: 0 <= i < |texts| ==> StripLead(texts[i]) != ""
    ensures CommentUpTo(items, n) == Ok(JoinLines(Stripped(texts[..n])))
    decreases n
  {
    if n > 0 {
      TextChildrenJoin(items, kinds, texts, n - 1);
      TextChildrenStep(items, kinds[n - 1], texts, n);
    }
  }

  /** One step of `TextChildrenJoin`, with only the facts about the last child. */
  lemma TextChildrenStep(items: seq<Json>, kind: string, texts: seq<string>, n: nat)
    requires 0 < n <= |items| && n <= |texts|
    requires IsTextChild(items[n - 1], kind, texts[n - 1]) && kind != "ParagraphComment"
    requires forall i :: 0 <= i < |texts| ==> StripLead(texts[i]) != ""
    requires CommentUpTo(items, n - 1) == Ok(JoinLines(Stripped(texts[..n - 1])))
    ensures CommentUpTo(items, n) == Ok(JoinLines(Stripped(texts[..n])))
  {
    if n - 1 > 0 {
      JoinLinesNonEmpty(Stripped(texts[..n - 1]), texts[..n - 1]);
    }
    var P := Stripped(texts[..n - 1]);
    var acc := JoinLines(P);
    var s := StripLead(texts[n - 1]);
    CommentUpToStep(items, n, acc);
    TextChildStep(acc, items[n - 1], kind, texts[n - 1]);
    assert texts[..n][..n - 1] == texts[..n - 1];
    assert Stripped(texts[..n]) == P + [s];
    JoinLinesSnoc(P, s);
    if n - 1 == 0 {
      assert acc == "";
      assert acc + "" + s == s;
    }
  }

  /** Once the first `n - 1` children gave `acc`, the `n`-th child continues from it. */
  lemma CommentUpToStep(items: seq<Json>, n: nat, acc: string)
    requires 0 < n <= |items| && CommentUpTo(items, n - 1) == Ok(acc)
    ensures CommentUpTo(items, n) == ChildStep(acc, items[n - 1])
  {
  }

  /** A text child appends its stripped text, after a line break unless nothing came before. */
  lemma TextChildStep(acc: string, child: Json, kind: string, text: string)
    requires IsTextChild(child, kind, text) && kind != "ParagraphComment"
    ensures ChildStep(acc, child) == Ok(acc + (if acc != "" then "\n" else "") + StripLead(text))
  {
  }

  lemma JoinLinesSnoc(parts: seq<string>, s: string)
    ensures JoinLines(parts + [s]) == if parts == [] then s else JoinLines(parts) + "\n" + s
  {
    assert (parts + [s])[..|parts|] == parts;
  }

  /** Texts separated by line breaks. */
  function JoinLines(parts: seq<string>): string
    decreases |parts|
  {
    if |parts| == 0 then ""
    else if |parts| == 1 then parts[0]
    else JoinLines(parts[..|parts| - 1]) + "\n" + parts[|parts| - 1]
  }

  lemma {:induction false} JoinLinesNonEmpty(parts: seq<string>, texts: seq<string>)
    requires parts == Stripped(texts) && |parts| > 0
    requires forall i :: 0 <= i < |texts| ==> StripLead(texts[i]) != ""
    ensures JoinLines(parts) != ""
  {
    var last := parts[|parts| - 1];
    assert last == StripLead(texts[|texts| - 1]);
    if |parts| > 1 {
      var init := JoinLines(parts[..|parts| - 1]);
      assert |init + "\n" + last| > 0;
    }
  }

  /** A paragraph inside a comment is flattened in place: its text follows what came before
      with no separator. */
  lemma ParagraphAppends(acc: string, child: Json, t: string)
    requires child.Obj? && AsString(Lookup(child.fields, "kind")) == Ok("ParagraphComment")
    requires CommentText(child) == Ok(t)
    ensures ChildStep(acc, child) == Ok(acc + t)
  {
  }

  /** `parse_comment`, as the source writes it: a loop over the children that appends to the
      result and recurses into paragraphs. */
  method ParseComment(entity: Json) returns (r: Result<string>)
    ensures r == CommentText(entity)
    decreases entity, 0
  {
    if !entity.Obj? {
      return Err(IncorrectType);
    }
    var i := FieldIndex(entity.fields, "inner");
    if i < 0 {
      return Err(NoSuchField);
    }
    var inner := entity.fields[i].value;
    if !inner.Arr? {
      return Err(IncorrectType);
    }
    var items := inner.items;
    var result := "";
    for k := 0 to |items|
      invariant CommentUpTo(items, k) == Ok(result)
    {
      var step := ParseChild(result, items[k]);
      if step.Err? {
        CommentErrorSticks(items, k + 1, |items|);
        return Err(step.error);
      }
      result := step.value;
    }
    return Ok(result);
  }

  /** The body of `parse_comment`'s loop for one child. */
  method ParseChild(result: string, child: Json) returns (r: Result<string>)
    ensures r == ChildStep(result, child)
    decreases child, 1
  {
    if !child.Obj? {
      return Err(IncorrectType);
    }
    var kind := AsString(Lookup(child.fields, "kind"));
    if kind.Err? {
      return Err(kind.error);
    }
    if kind.value == "ParagraphComment" {
      var sub := ParseComment(child);
      if sub.Err? {
        return Err(sub.error);
      }
      return Ok(result + sub.value);
    }
    var acc := result;
    if acc != "" {
      acc := acc + "\n";
    }
    assert acc == result + (if result != "" then "\n" else "");
    var text := AsString(Lookup(child.fields, "text"));
    if text.Err? {
      return Err(text.error);
    }
    var t := text.value;
    if |t| > 0 && (t[0] == ' ' || t[0] == '\t') {
      t := t[1..];
    }
    assert t == StripLead(text.value);
    return Ok(acc + t);
  }

  // ---------------------------------------------------------------- unexposed entities

  /** The source range of an unexposed entity and, when it has a name, its name and id. The
      tokens between the two offsets are read from the file and tokenized by the source. */
  datatype Unexposed = Unexposed(begin: nat, end: nat, named: Option<Named>)

  datatype Named = Named(id: string, name: string)

  /** `get_actual_location(range[key])["offset"].get_uint64()`. */
  function Offset(range: seq<Field>, key: string): Result<nat> {
    match Lookup(range, key)
    case Err(e) => Err(e)
    case Ok(Obj(location)) =>
      (match ActualLocation(location)
       case Err(e) => Err(e)
       case Ok(actual) => AsUint(Lookup(actual, "offset")))
    case Ok(_) => Err(IncorrectType)
  }

  /** The range check of `parse_unexposed_entity`: both offsets, begin first, and the range is
      rejected when it starts after it ends. */
  function RangeOf(entity: seq<Field>): (r: Result<(nat, nat)>)
    ensures r.Ok? ==> r.value.0 <= r.value.1
  {
    match Lookup(entity, "range")
    case Ok(Obj(range)) =>
      (match Offset(range, "begin")
       case Err(e) => Err(e)
       case Ok(begin) =>
         (match Offset(range, "end")
          case Err(e) => Err(e)
          case Ok(end) => if begin > end then Err(InvalidRange) else Ok((begin, end))))
    case Ok(_) => Err(IncorrectType)
    case Err(e) => Err(e)
  }

  /** An unexposed entity is rejected as an invalid range exactly when both offsets are read and
      the first exceeds the second; otherwise its range is exactly the two offsets. */
  lemma RangeCheck(entity: seq<Field>, range: seq<Field>, begin: nat, end: nat)
    requires Lookup(entity, "range") == Ok(Obj(range))
    requires Offset(range, "begin") == Ok(begin) && Offset(range, "end") == Ok(end)
    ensures RangeOf(entity) == Err(InvalidRange) <==> begin > end
    ensures begin <= end ==> RangeOf(entity) == Ok((begin, end))
  {
  }

  /** An invalid range is only ever reported for an entity whose offsets were both read. */
  lemma InvalidRangeOnlyFromOffsets(entity: seq<Field>)
    requires RangeOf(entity) == Err(InvalidRange)
    ensures Lookup(entity, "range").Ok? && Lookup(entity, "range").value.Obj?
    ensures var range := Lookup(entity, "range").value.fields;
      Offset(range, "begin").Ok? && Offset(range, "end").Ok? && Offset(range, "begin").value > Offset(range, "end").value
  {
  }

  /** `parse_unexposed_entity`, without the reading and tokenizing of the source text. */
  function UnexposedOf(path: string, entity: seq<Field>): (r: Result<Unexposed>)
    ensures r.Ok? ==> RangeOf(entity) == Ok((r.value.begin, r.value.end))
    ensures r.Ok? ==> (r.value.named.Some? <==> Lookup(entity, "name").Ok?)
    ensures r.Ok? && r.value.named.Some? ==>
      EntityId(path, entity).Ok? && AsString(Lookup(entity, "name")).Ok? &&
      r.value.named.value == Named(EntityId(path, entity).value, AsString(Lookup(entity, "name")).value)
    ensures RangeOf(entity).Err? ==> r == Err(RangeOf(entity).error)
    ensures RangeOf(entity).Ok? && Lookup(entity, "name").Err? ==>
      r == Ok(Unexposed(RangeOf(entity).value.0, RangeOf(entity).value.1, None))
    ensures RangeOf(entity).Ok? && Lookup(entity, "name").Ok? && EntityId(path, entity).Err? ==>
      r == Err(EntityId(path, entity).error)
    ensures (RangeOf(entity).Ok? && Lookup(entity, "name").Ok? && EntityId(path, entity).Ok? &&
             AsString(Lookup(entity, "name")).Err?) ==> r == Err(AsString(Lookup(entity, "name")).error)
    ensures (RangeOf(entity).Ok? && Lookup(entity, "name").Ok? && EntityId(path, entity).Ok? &&
             AsString(Lookup(entity, "name")).Ok?) ==>
      r == Ok(Unexposed(RangeOf(entity).value.0, RangeOf(entity).value.1,
                        Some(Named(EntityId(path, entity).value, AsString(Lookup(entity, "name")).value))))
  {
    match RangeOf(entity)
    case Err(e) => Err(e)
    case Ok(offsets) =>
      var name := Lookup(entity, "name");
      if name == Err(NoSuchField) then Ok(Unexposed(offsets.0, offsets.1, None))
      else
        (match EntityId(path, entity)
         case Err(e) => Err(e)
         case Ok(id) =>
           (match AsString(name)
            case Err(e) => Err(e)
            case Ok(n) => Ok(Unexposed(offsets.0, offsets.1, Some(Named(id, n))))))
  }

  // ---------------------------------------------------------------- parse_entity

  /** What `parse_entity` returns. */
  datatype Parsed =
    | NoEntity                                   // a null pointer
    | Delegated(kind: string, yieldsEntity: bool) // handled by the parser of that kind
    | UnexposedEntity(entity: Unexposed)

  /** The kinds with a parser of their own. */
  const DelegatedKinds: seq<string> :=
    ["LinkageSpecDecl", "NamespaceDecl", "NamespaceAliasDecl", "UsingDirectiveDecl", "UsingDecl",
     "UsingShadowDecl", "TypeAliasDecl", "TypedefDecl", "EnumDecl"]

  /** The outcome of `parse_entity`: its result, the comment it gives the parent (if any), and
      whether it flags the parse context as failed. The parsers of the delegated kinds are not
      part of this model; `delegateFails` says whether the one called throws, which the same
      handlers catch. */
  datatype Outcome = Outcome(result: Parsed, comment: Option<string>, error: bool)

  function EntityOutcome(path: string, kind: string, entity: seq<Field>, delegateFails: bool): (o: Outcome)
    ensures o.error ==> o.result == NoEntity && o.comment == None
    ensures o.comment.Some? ==> kind == "FullComment" && o.result == NoEntity
  {
    if kind == "FullComment" then
      match CommentText(Obj(entity))
      case Ok(t) => Outcome(NoEntity, Some(t), false)
      case Err(_) => Outcome(NoEntity, None, true)
    else if kind in DelegatedKinds then
      if delegateFails then Outcome(NoEntity, None, true)
      else Outcome(Delegated(kind, kind != "UsingShadowDecl"), None, false)
    else
      match UnexposedOf(path, entity)
      case Ok(u) => Outcome(UnexposedEntity(u), None, false)
      case Err(_) => Outcome(NoEntity, None, true)
  }

  /** A comment is never an entity of its own: a `FullComment` yields no entity, and its text
      becomes the parent's comment exactly when it can be read; otherwise the parse is flagged
      as failed and the parent keeps its comment. */
  lemma FullCommentOutcome(path: string, entity: seq<Field>, delegateFails: bool)
    ensures EntityOutcome(path, "FullComment", entity, delegateFails).result == NoEntity
    ensures CommentText(Obj(entity)).Ok? ==> EntityOutcome(path, "FullComment", entity, delegateFails) == Outcome(NoEntity, Some(CommentText(Obj(entity)).value), false)
    ensures CommentText(Obj(entity)).Err? ==> EntityOutcome(path, "FullComment", entity, delegateFails) == Outcome(NoEntity, None, true)
  {
  }

  /** An entity of a kind without a parser of its own becomes an unexposed entity, and the parse
      is flagged as failed exactly when its range is missing, malformed or inverted, or its name or
      id cannot be read. */
  lemma UnexposedOutcome(path: string, kind: string, entity: seq<Field>, delegateFails: bool)
    requires kind != "FullComment" && kind !in DelegatedKinds
    ensures EntityOutcome(path, kind, entity, delegateFails).error <==> UnexposedOf(path, entity).Err?
    ensures RangeOf(entity) == Err(InvalidRange) ==> EntityOutcome(path, kind, entity, delegateFails).error
    ensures UnexposedOf(path, entity).Ok? ==> EntityOutcome(path, kind, entity, delegateFails).result == UnexposedEntity(UnexposedOf(path, entity).value)
  {
  }

  /** A kind with a parser of its own is never parsed as an unexposed entity: it yields what that
      parser yields (nothing for a using-shadow declaration, whose entity that parser has already
      created), or fails as it fails. */
  lemma DelegatedOutcome(path: string, kind: string, entity: seq<Field>, delegateFails: bool)
    requires kind in DelegatedKinds
    ensures !EntityOutcome(path, kind, entity, delegateFails).result.UnexposedEntity?
    ensures EntityOutcome(path, kind, entity, delegateFails).error == delegateFails
    ensures !delegateFails ==> EntityOutcome(path, kind, entity, delegateFails).result == Delegated(kind, kind != "UsingShadowDecl")
  {
    assert kind != "FullComment";
  }

  /** `parse_context`: the path of the file being parsed and the failure flag. */
  class ParseContext {
    const path: string
    var error: bool

    constructor (path: string)
      ensures this.path == path && !error
    {
      this.path := path;
      error := false;
    }
  }

  /** The part of `cpp_entity` that `parse_entity` changes: the documentation comment. */
  class CppEntity {
    var comment: Option<string>

    constructor ()
      ensures comment == None
    {
      comment := None;
    }
  }

  /** `parse_entity`, with both of its exception handlers: a failure of the parse itself flags
      the context and yields no entity. The `get_location` calls of the verbose log and of the
      handlers are not modelled, so this does not cover an entity whose `loc` cannot be read:
      there the source's exception leaves `parse_entity` and the context is not flagged. */
  method ParseEntity(context: ParseContext, parent: CppEntity, kind: string, entity: seq<Field>, delegateFails: bool)
    returns (r: Parsed)
    modifies context, parent
    ensures r == EntityOutcome(context.path, kind, entity, delegateFails).result
    ensures context.error == (old(context.error) || EntityOutcome(context.path, kind, entity, delegateFails).error)
    ensures parent.comment == (if EntityOutcome(context.path, kind, entity, delegateFails).comment.Some?
                               then EntityOutcome(context.path, kind, entity, delegateFails).comment else old(parent.comment))
  {
    if kind == "FullComment" {
      var comment := ParseComment(Obj(entity));
      if comment.Err? {
        context.error := true;
        return NoEntity;
      }
      parent.comment := Some(comment.value);
      return NoEntity;
    }
    if kind in DelegatedKinds {
      if delegateFails {
        context.error := true;
        return NoEntity;
      }
      return Delegated(kind, kind != "UsingShadowDecl");
    }
    var u := UnexposedOf(context.path, entity);
    if u.Err? {
      context.error := true;
      return NoEntity;
    }
    return UnexposedEntity(u.value);
  }
}
