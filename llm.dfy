/**
 * Item extraction: the fallback used whenever the language model is off or
 * its answer is unusable, and the loop that fills in the defaults of the
 * items the model returned. The model call and the JSON parse are inputs.
 */
module Llm {
  import opened Values
  import opened Text
  import opened Config

  /** The seventeen fields of an extracted item, in the order the fallback lists them. */
  const SchemaKeys: seq<string> := [
    "item_index", "type", "item_name", "brand_or_category", "city", "state",
    "country", "lat", "lng", "distance_km", "price", "price_source",
    "purchase_link", "key_specs", "notes", "confidence", "processing_status"
  ]

  const SnippetLength: nat := 160
  const NameLength: nat := 60
  const FallbackNote := "LLM disabled; manual review needed"

  /** The fields the fallback fills in; the other eleven are None. */
  const FilledKeys: set<string> := {"item_index", "type", "item_name", "notes", "confidence", "processing_status"}

  /** The value the fallback item holds under `key`, given its name. */
  function FallbackField(key: string, name: string): Value
  {
    if key !in FilledKeys then Null
    else if key == "item_index" then Int(1)
    else if key == "type" then Str("other")
    else if key == "item_name" then Str(name)
    else if key == "notes" then Str(FallbackNote)
    else if key == "confidence" then Float(0.3)
    else if key == "processing_status" then Str("review")
    else Null
  }

  /** The name of the fallback item: the first line of the snippet, cut to sixty characters. */
  function FallbackName(blob: string): (name: string)
    ensures |name| <= NameLength && |name| <= |blob| && name == blob[..|name|]
    ensures forall i :: 0 <= i < |name| ==> name[i] != '\n'
    ensures |name| < NameLength && |name| < Min(|blob|, SnippetLength) ==> blob[|name|] == '\n'
  {
    var snippet := Take(blob, SnippetLength);
    var line := FirstLine(snippet);
    assert line == blob[..|line|];
    Take(line, NameLength)
  }

  /** The single item of the fallback: all seventeen fields, six of them filled in. */
  function FallbackItem(name: string): (it: Item)
    ensures it.Keys == set k | k in SchemaKeys
    ensures it["item_index"] == Int(1) && it["type"] == Str("other") && it["item_name"] == Str(name)
    ensures it["notes"] == Str(FallbackNote)
    ensures it["confidence"] == Float(0.3) && it["processing_status"] == Str("review")
    ensures forall k :: k in it && k !in FilledKeys ==> it[k] == Null
  {
    map k | k in SchemaKeys :: FallbackField(k, name)
  }

  /**
   * `_fallback_extract`: nothing for a blank snippet, otherwise one item
   * for manual review named after the snippet's first line.
   */
  function FallbackExtract(blob: string): (items: seq<Item>)
    ensures items == [] <==> Blank(Take(blob, SnippetLength))
    ensures items != [] ==> items == [FallbackItem(FallbackName(blob))]
  {
    if Strip(Take(blob, SnippetLength)) == [] then []
    else [FallbackItem(FallbackName(blob))]
  }

  /** What the model call and the JSON parse gave. */
  datatype LlmReply =
    | CallFailed          // the client could not be created or the request raised
    | Unparsable          // the reply's text is not JSON
    | Parsed(data: Value) // the parsed JSON value

  /** The value taken as the item list: the "items" entry of an object, or the value itself. */
  function Candidate(data: Value): (r: Value)
    ensures !data.Dict? ==> r == data
    ensures data.Dict? && "items" in data.fields ==> r == data.fields["items"]
    ensures data.Dict? && "items" !in data.fields ==> r == Null
  {
    if data.Dict? then Get(data.fields, "items") else data
  }

  predicate AllDicts(vs: seq<Value>)
  {
    forall k :: 0 <= k < |vs| ==> vs[k].Dict?
  }

  /** The model's items are used: the feature is on, a key is set, and the reply is a list of objects. */
  predicate UsesReply(settings: Settings, reply: LlmReply)
    ensures !settings.useLlm || !IsSet(settings.openaiApiKey) || !reply.Parsed? ==> !UsesReply(settings, reply)
    ensures reply.Parsed? && reply.data.Dict? && "items" !in reply.data.fields ==> !UsesReply(settings, reply)
    ensures reply.Parsed? && !reply.data.Dict? && !reply.data.List? ==> !UsesReply(settings, reply)
    ensures settings.useLlm && IsSet(settings.openaiApiKey) && reply.Parsed? && reply.data.List? ==>
      (UsesReply(settings, reply) <==> forall k :: 0 <= k < |reply.data.elems| ==> reply.data.elems[k].Dict?)
  {
    settings.useLlm && IsSet(settings.openaiApiKey) && reply.Parsed?
    && Candidate(reply.data).List? && AllDicts(Candidate(reply.data).elems)
  }

  /** An object after the three `setdefault` calls of the loop, at 1-based position `index`. */
  function WithDefaults(d: Item, index: int): (it: Item)
    ensures it.Keys == d.Keys + {"item_index", "confidence", "processing_status"}
    ensures forall key :: key in d ==> it[key] == d[key]
    ensures "item_index" !in d ==> it["item_index"] == Int(index)
    ensures "confidence" !in d ==> it["confidence"] == Float(0.5)
    ensures "processing_status" !in d ==> it["processing_status"] == Str("review")
  {
    SetDefault(SetDefault(SetDefault(d, "item_index", Int(index)), "confidence", Float(0.5)), "processing_status", Str("review"))
  }

  /** The items a list of objects becomes: each object with its defaults, numbered from 1. */
  function Defaulted(elems: seq<Value>): (items: seq<Item>)
    requires AllDicts(elems)
    ensures |items| == |elems|
    ensures forall k :: 0 <= k < |elems| ==> items[k] == WithDefaults(elems[k].fields, k + 1)
  {
    seq(|elems|, k requires 0 <= k < |elems| => WithDefaults(elems[k].fields, k + 1))
  }

  /**
   * What `extract_items_with_llm` returns: the model's objects with their
   * defaults when the reply is usable, the fallback otherwise. Every item
   * carries an index, a confidence and a status; the list is empty only for
   * an empty reply list or a blank snippet.
   */
  function Extraction(blob: string, settings: Settings, reply: LlmReply): (items: seq<Item>)
    ensures forall it :: it in items ==>
      "item_index" in it && "confidence" in it && "processing_status" in it
    ensures items == [] <==>
      if UsesReply(settings, reply) then Candidate(reply.data).elems == [] else Blank(Take(blob, SnippetLength))
    ensures UsesReply(settings, reply) ==>
      && |items| == |Candidate(reply.data).elems|
      && forall k :: 0 <= k < |items| ==> Candidate(reply.data).elems[k].fields.Keys <= items[k].Keys
    ensures !UsesReply(settings, reply) ==> |items| <= 1
  {
    if UsesReply(settings, reply) then Defaulted(Candidate(reply.data).elems) else FallbackExtract(blob)
  }

  /**
   * `extract_items_with_llm`: the fallback unless the reply is a list of
   * objects; then every object gets `item_index` (its 1-based position),
   * `confidence` 0.5 and `processing_status` "review" where it lacks them,
   * and keeps everything it has.
   */
  method ExtractItems(blob: string, settings: Settings, reply: LlmReply) returns (items: seq<Item>)
    ensures items == Extraction(blob, settings, reply)
  {
    if !settings.useLlm || !IsSet(settings.openaiApiKey) {
      return FallbackExtract(blob);
    }
    if !reply.Parsed? {
      return FallbackExtract(blob);
    }
    var candidate := Candidate(reply.data);
    if !candidate.List? {
      // ValueError("Invalid items JSON"), caught by the parse handler
      return FallbackExtract(blob);
    }
    var elems := candidate.elems;
    items := [];
    var k := 0;
    while k < |elems|
      invariant 0 <= k <= |elems| && |items| == k
      invariant AllDicts(elems[..k])
      invariant forall j :: 0 <= j < k ==> items[j] == WithDefaults(elems[j].fields, j + 1)
    {
      if !elems[k].Dict? {
        // `setdefault` on a non-object raises; the handler returns the fallback
        assert !AllDicts(elems);
        return FallbackExtract(blob);
      }
      var it := elems[k].fields;
      it := SetDefault(it, "item_index", Int(k + 1));
      it := SetDefault(it, "confidence", Float(0.5));
      it := SetDefault(it, "processing_status", Str("review"));
      items := items + [it];
      k := k + 1;
    }
    assert elems[..k] == elems;
  }
}
