/** Notion property values as the script sees them (nested dictionaries), and the
    two "safe" accessors `extract_text` and `extract_datetime` of reminder_sender.py. */
module Properties {
  import opened Wrappers

  /** One element of a `title` or `rich_text` array. `plainText` is None when the
      element has no "plain_text" key, so that reading it raises `KeyError`. */
  datatype TextItem = TextItem(plainText: Option<string>)

  /** The "date" object of a date property. `start` is None when the key is absent
      or null; `prop["date"]["start"]` then raises or is falsy, and both give None. */
  datatype DateObject = DateObject(start: Option<string>)

  /** A Notion property value. Each field is None when its key is absent; `date`
      is also None when the value is null. */
  datatype Property = Property(
    title: Option<seq<TextItem>>,
    richText: Option<seq<TextItem>>,
    date: Option<DateObject>)

  /** The "properties" dictionary of a page, keyed by property name. */
  type Props = map<string, Property>

  /** An ISO-8601 parser (`fromisoformat` followed by `astimezone`), left abstract:
      None when parsing raises, otherwise the instant in epoch seconds. */
  type Parser = string -> Option<int>

  /** `props.get(key)`: None when the key is absent, never an exception. */
  function Get(props: Props, key: string): Option<Property>
  {
    if key in props then Some(props[key]) else None
  }

  /** Python truthiness of an optional list: present and non-empty. */
  predicate NonEmpty(items: Option<seq<TextItem>>) {
    items.Some? && |items.value| > 0
  }

  /** `items[0]['plain_text']`, which raises when the first element lacks the key. */
  function FirstPlainText(items: seq<TextItem>): Try<Option<string>>
    requires |items| > 0
  {
    if items[0].plainText.Some? then Ok(items[0].plainText) else Raised
  }

  /** `extract_text(prop)`: the first title text, else the first rich-text text,
      else None. `prop` is what `props.get(...)` returned, and `'title' in None`
      raises, so an absent property makes the call raise. */
  function ExtractText(prop: Option<Property>): (r: Try<Option<string>>)
    ensures prop.None? ==> r.Raised?
    ensures prop.Some? && NonEmpty(prop.value.title) && prop.value.title.value[0].plainText.Some? ==>
      r == Ok(prop.value.title.value[0].plainText)
    ensures prop.Some? && !NonEmpty(prop.value.title) && NonEmpty(prop.value.richText) &&
            prop.value.richText.value[0].plainText.Some? ==>
      r == Ok(prop.value.richText.value[0].plainText)
    ensures r == Ok(None) <==>
      prop.Some? && !NonEmpty(prop.value.title) && !NonEmpty(prop.value.richText)
    ensures r.Ok? && r.value.Some? ==>
      prop.Some? &&
      ((NonEmpty(prop.value.title) && r.value == prop.value.title.value[0].plainText) ||
       (!NonEmpty(prop.value.title) && NonEmpty(prop.value.richText) &&
        r.value == prop.value.richText.value[0].plainText))
  {
    match prop
    case None => Raised
    case Some(p) =>
      if NonEmpty(p.title) then FirstPlainText(p.title.value)
      else if NonEmpty(p.richText) then FirstPlainText(p.richText.value)
      else Ok(None)
  }

  /** `extract_datetime(prop)`: the parsed start of the date, or None. It never
      raises: a missing key or a failing parse is caught and gives None. */
  function ExtractDatetime(prop: Option<Property>, parse: Parser): (r: Option<int>)
    ensures r.Some? <==>
      prop.Some? && prop.value.date.Some? && prop.value.date.value.start.Some? &&
      prop.value.date.value.start.value != "" &&
      parse(prop.value.date.value.start.value).Some?
    ensures r.Some? ==> r == parse(prop.value.date.value.start.value)
  {
    if prop.Some? && prop.value.date.Some? && prop.value.date.value.start.Some?
       && prop.value.date.value.start.value != ""
    then parse(prop.value.date.value.start.value)
    else None
  }

  /** A non-empty title decides the result: the rich text is then never consulted. */
  lemma TitleTakesPrecedence(p: Property, q: Property)
    requires NonEmpty(p.title) && q.title == p.title
    ensures ExtractText(Some(p)) == ExtractText(Some(q))
    ensures ExtractText(Some(p)) == FirstPlainText(p.title.value)
  {
  }

  /** With no usable title the result is exactly what the rich text alone gives. */
  lemma RichTextIsTheFallback(p: Property)
    requires !NonEmpty(p.title)
    ensures ExtractText(Some(p)) == ExtractText(Some(p.(title := None)))
    ensures NonEmpty(p.richText) ==> ExtractText(Some(p)) == FirstPlainText(p.richText.value)
  {
  }

  /** The four ways `extract_datetime` gives None without raising: no property,
      no (or null) date, no (or empty) start, and a start that does not parse. */
  lemma ExtractDatetimeNoneCases(prop: Option<Property>, parse: Parser)
    ensures prop.None? ==> ExtractDatetime(prop, parse).None?
    ensures prop.Some? && prop.value.date.None? ==> ExtractDatetime(prop, parse).None?
    ensures prop.Some? && prop.value.date.Some? &&
            (prop.value.date.value.start.None? || prop.value.date.value.start == Some(""))
            ==> ExtractDatetime(prop, parse).None?
    ensures prop.Some? && prop.value.date.Some? && prop.value.date.value.start.Some? &&
            parse(prop.value.date.value.start.value).None?
            ==> ExtractDatetime(prop, parse).None?
  {
  }
}
