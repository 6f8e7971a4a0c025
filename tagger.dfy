/** `tagger.add(carrier, input)`: merges tags into a plain object. The tagger
    itself is not part of this model; it is taken to write the input's pairs
    over the carrier's properties, left to right, with the reading of a
    tag-list string (such as the value of `DD_TAGS`) given as `parse`. */
module Tagger {
  import opened JsValues

  /** What may be handed to `tagger.add`: nothing, a tag-list string, or an
      object of tags. */
  datatype TagInput = NoTags | TagList(text: string) | TagMap(pairs: map<string, Value>)

  /** The tag pairs an input contributes. */
  function Pairs(input: TagInput, parse: string -> map<string, Value>): map<string, Value> {
    match input
    case NoTags => map[]
    case TagList(text) => parse(text)
    case TagMap(pairs) => pairs
  }

  /** The tags after adding `input` to `tags`: the input's pairs win, every
      other tag stays as it was. */
  function Merge(tags: map<string, Value>, input: TagInput, parse: string -> map<string, Value>): (r: map<string, Value>)
    ensures r.Keys == tags.Keys + Pairs(input, parse).Keys
    ensures forall k :: k in Pairs(input, parse) ==> r[k] == Pairs(input, parse)[k]
    ensures forall k :: k in tags && k !in Pairs(input, parse) ==> r[k] == tags[k]
  {
    tags + Pairs(input, parse)
  }

  method Add(carrier: JsObject, input: TagInput, parse: string -> map<string, Value>)
    modifies carrier
    ensures carrier.props == Merge(old(carrier.props), input, parse)
  {
    carrier.Assign(Pairs(input, parse));
  }
}
