/**
 * The two response-shape normalisers of src/lib/utils/format.js. Backend
 * endpoints answer with a bare array, a paginated envelope
 * `{content, totalElements, totalPages, number, size}` or an
 * `{items: [...]}` wrapper; `NormalizePage` turns any of them into one Page
 * and `ToArray` into one sequence.
 */
module Format {
  import opened Js

  /**
   * The canonical page. `content` is always a sequence; the four counters
   * are passed through from the payload as they are, so they are JavaScript
   * values (a server may send a string or an object there).
   */
  datatype Page = Page(content: seq<JsValue>, totalElements: JsValue, totalPages: JsValue, number: JsValue, size: JsValue)

  /** The page returned for an absent or falsy payload. */
  const EmptyPage := Page([], Num(0), Num(0), Num(0), Num(0))

  /** The page wrapping a bare array: one page holding every element. */
  function SinglePage(xs: seq<JsValue>): Page {
    Page(xs, Num(|xs|), Num(1), Num(0), Num(|xs|))
  }

  /** A page as the plain object a component would receive. */
  function PageToJs(p: Page): JsValue {
    Obj(map["content" := Arr(p.content), "totalElements" := p.totalElements,
            "totalPages" := p.totalPages, "number" := p.number, "size" := p.size])
  }

  /** `normalizePage(payload)`. */
  function NormalizePage(payload: JsValue): (r: Page)
    // absent or falsy payload: the all-zero empty page
    ensures !Truthy(payload) ==> r == EmptyPage
    // bare array: a single page over it
    ensures payload.Arr? ==> r == SinglePage(payload.items)
    // envelope: content only when it is an array
    ensures Truthy(payload) && !payload.Arr? ==>
      r.content == (var c := Get(payload, "content"); if c.Arr? then c.items else [])
    // a counter the server sent (anything but null/undefined, including 0) is kept
    ensures Truthy(payload) && !payload.Arr? ==>
      && (!Nullish(Get(payload, "totalElements")) ==> r.totalElements == Get(payload, "totalElements"))
      && (!Nullish(Get(payload, "totalPages")) ==> r.totalPages == Get(payload, "totalPages"))
      && (!Nullish(Get(payload, "number")) ==> r.number == Get(payload, "number"))
      && (!Nullish(Get(payload, "size")) ==> r.size == Get(payload, "size"))
    // a missing counter takes its default
    ensures Truthy(payload) && !payload.Arr? ==>
      && (Nullish(Get(payload, "totalPages")) ==> r.totalPages == Num(1))
      && (Nullish(Get(payload, "number")) ==> r.number == Num(0))
      && (Nullish(Get(payload, "totalElements")) ==>
            r.totalElements == Coalesce(OptionalLength(Get(payload, "content")), Num(0)))
      && (Nullish(Get(payload, "size")) ==>
            r.size == Coalesce(OptionalLength(Get(payload, "content")), Num(0)))
    // no counter of the result is ever null or undefined
    ensures !Nullish(r.totalElements) && !Nullish(r.totalPages) && !Nullish(r.number) && !Nullish(r.size)
  {
    if !Truthy(payload) then
      EmptyPage
    else if payload.Arr? then
      SinglePage(payload.items)
    else
      var content := Get(payload, "content");
      Page(if content.Arr? then content.items else [],
           Coalesce(Coalesce(Get(payload, "totalElements"), OptionalLength(content)), Num(0)),
           Coalesce(Get(payload, "totalPages"), Num(1)),
           Coalesce(Get(payload, "number"), Num(0)),
           Coalesce(Coalesce(Get(payload, "size"), OptionalLength(content)), Num(0)))
  }

  /** `toArray(value)`. */
  function ToArray(value: JsValue): (r: seq<JsValue>)
    ensures !Truthy(value) ==> r == []
    ensures value.Arr? ==> r == value.items
    // `content` is preferred over `items` when both are arrays
    ensures Truthy(value) && !value.Arr? && Get(value, "content").Arr? ==>
      r == Get(value, "content").items
    ensures Truthy(value) && !value.Arr? && !Get(value, "content").Arr? && Get(value, "items").Arr? ==>
      r == Get(value, "items").items
    // neither field an array: empty
    ensures Truthy(value) && !value.Arr? && !Get(value, "content").Arr? && !Get(value, "items").Arr? ==>
      r == []
  {
    if !Truthy(value) then
      []
    else if value.Arr? then
      value.items
    else if Get(value, "content").Arr? then
      Get(value, "content").items
    else if Get(value, "items").Arr? then
      Get(value, "items").items
    else
      []
  }

  /** Normalising a page that was already normalised changes nothing. */
  lemma NormalizePageIdempotent(payload: JsValue)
    ensures NormalizePage(PageToJs(NormalizePage(payload))) == NormalizePage(payload)
  {
    var p := NormalizePage(payload);
    var o := PageToJs(p);
    assert Get(o, "content") == Arr(p.content);
    assert Get(o, "totalElements") == p.totalElements;
    assert Get(o, "totalPages") == p.totalPages;
    assert Get(o, "number") == p.number;
    assert Get(o, "size") == p.size;
  }

  /** A bare array is normalised exactly as the envelope `{content: array}`. */
  lemma BareArrayIsSingleEnvelope(xs: seq<JsValue>)
    ensures NormalizePage(Arr(xs)) == NormalizePage(Obj(map["content" := Arr(xs)]))
  {
    var o := Obj(map["content" := Arr(xs)]);
    assert Get(o, "content") == Arr(xs);
    assert Get(o, "totalElements") == Undefined && Get(o, "size") == Undefined;
    assert Get(o, "totalPages") == Undefined && Get(o, "number") == Undefined;
  }

  /** Reading a normalised page back as a list gives its content. */
  lemma ToArrayOfPage(p: Page)
    ensures ToArray(PageToJs(p)) == p.content
  {
    assert Get(PageToJs(p), "content") == Arr(p.content);
  }

  /**
   * The two normalisers agree on the items of a payload, except where
   * `ToArray` falls back to an `items` array that `NormalizePage` ignores.
   */
  lemma ContentAgreesWithToArray(payload: JsValue)
    ensures NormalizePage(payload).content == ToArray(payload)
        <==> !(Truthy(payload) && !payload.Arr? && !Get(payload, "content").Arr?
               && Get(payload, "items").Arr? && Get(payload, "items").items != [])
  {
  }

  /**
   * A non-array `content` yields no items but still sets the counts from its
   * `length`: a string `content` reports its length in UTF-16 code units.
   */
  lemma StringContentCounts(s: string)
    ensures var p := NormalizePage(Obj(map["content" := Str(s)]));
      p.content == [] && p.totalElements == Num(Utf16Length(s)) && p.size == Num(Utf16Length(s))
  {
    var o := Obj(map["content" := Str(s)]);
    assert Get(o, "content") == Str(s);
    assert Get(o, "totalElements") == Undefined && Get(o, "size") == Undefined;
  }

  /**
   * An object `content` yields no items, and the counts come from its own
   * `length` property (0 when it has none).
   */
  lemma ObjectContentCounts(fields: map<string, JsValue>)
    ensures var p := NormalizePage(Obj(map["content" := Obj(fields)]));
      && p.content == []
      && p.totalElements == (if "length" in fields && !Nullish(fields["length"]) then fields["length"] else Num(0))
      && p.size == p.totalElements
  {
    var o := Obj(map["content" := Obj(fields)]);
    assert Get(o, "content") == Obj(fields);
    assert Get(o, "totalElements") == Undefined && Get(o, "size") == Undefined;
  }

  /** Sample payload shapes. */
  lemma NormalizerExamples()
    ensures NormalizePage(Undefined) == Page([], Num(0), Num(0), Num(0), Num(0))
    ensures NormalizePage(Arr([Num(1), Num(2), Num(3)])) == Page([Num(1), Num(2), Num(3)], Num(3), Num(1), Num(0), Num(3))
    ensures ToArray(Obj(map["items" := Arr([Num(1), Num(2)])])) == [Num(1), Num(2)]
    ensures ToArray(Obj(map["content" := Arr([Num(1)])])) == [Num(1)]
    ensures ToArray(Null) == [] && ToArray(Arr([Num(5)])) == [Num(5)]
    ensures NormalizePage(Obj(map["content" := Arr([]), "totalPages" := Num(0)])).totalPages == Num(0)
    ensures NormalizePage(Obj(map["content" := Str("😀")])).totalElements == Num(2)
  {
    var items := Obj(map["items" := Arr([Num(1), Num(2)])]);
    assert Get(items, "content") == Undefined && Get(items, "items") == Arr([Num(1), Num(2)]);
    var content := Obj(map["content" := Arr([Num(1)])]);
    assert Get(content, "content") == Arr([Num(1)]);
    var zero := Obj(map["content" := Arr([]), "totalPages" := Num(0)]);
    assert Get(zero, "totalPages") == Num(0);
    var emoji := Obj(map["content" := Str("😀")]);
    assert Get(emoji, "content") == Str("😀") && Get(emoji, "totalElements") == Undefined;
  }
}
