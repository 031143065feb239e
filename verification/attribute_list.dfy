/** Attribute lists, section 4.2 of RFC 8216: their texts and a reader for them. */
module AttributeLists {
  import opened Options
  import opened Scanning

  function Find(s: string, ch: char): (n: nat)
    ensures n <= |s| && (forall i :: 0 <= i < n ==> s[i] != ch) && (n < |s| ==> s[n] == ch)
  {
    if s == "" || s[0] == ch then 0 else 1 + Find(s[1..], ch)
  }

  datatype Pieces = Pieces(head: string, tail: string)

  /** What stands before and after the first occurrence. */
  function Cut(s: string, ch: char): (r: Option<Pieces>)
    ensures r.None? ==> ch !in s
    ensures r.Some? ==> ch !in r.value.head
    ensures r.Some? ==> s == r.value.head + [ch] + r.value.tail
  {
    var n := Find(s, ch);
    if n == |s| then None
    else
      assert s == s[..n] + [s[n]] + s[n + 1..];
      Some(Pieces(s[..n], s[n + 1..]))
  }

  lemma CutThere(head: string, ch: char, tail: string)
    requires ch !in head
    ensures Cut(head + [ch] + tail, ch) == Some(Pieces(head, tail))
  {
    var s := head + [ch] + tail;
    assert s[|head|] == ch;
    assert forall i :: 0 <= i < |head| ==> s[i] == head[i];
    assert Find(s, ch) == |head|;
    assert s[..|head|] == head && s[|head| + 1..] == tail;
  }

  datatype AttributeValue = Quoted(text: string) | Bare(text: string)

  datatype Attribute = Attribute(name: string, value: AttributeValue)

  predicate NameChar(ch: char) { 'A' <= ch <= 'Z' || IsDigit(ch) || ch == '-' }

  predicate BareChar(ch: char) { ch != ',' && ch != '"' && !IsBlank(ch) && ch != '\n' }

  predicate QuotedChar(ch: char) { ch != '"' && ch != '\r' && ch != '\n' }

  predicate WellFormed(a: Attribute)
  {
    && a.name != "" && (forall i :: 0 <= i < |a.name| ==> NameChar(a.name[i]))
    && match a.value
       case Quoted(t) => forall i :: 0 <= i < |t| ==> QuotedChar(t[i])
       case Bare(t) => t != "" && forall i :: 0 <= i < |t| ==> BareChar(t[i])
  }

  function ValueText(v: AttributeValue): string
  {
    match v
    case Quoted(t) => "\"" + t + "\""
    case Bare(t) => t
  }

  function AttributeText(a: Attribute): string { a.name + "=" + ValueText(a.value) }

  function Follow(tail: Option<string>): string { if tail.None? then "" else "," + tail.value }

  function ListText(attributes: seq<Attribute>): string
    requires attributes != []
  {
    var others := attributes[1..];
    AttributeText(attributes[0]) + Follow(if others == [] then None else Some(ListText(others)))
  }

  /** A value and what follows it: nothing, or a comma and a tail. */
  datatype Prefix = Prefix(value: AttributeValue, tail: Option<string>)

  function ReadValue(s: string): (r: Option<Prefix>)
    ensures r.Some? && r.value.tail.Some? ==> |r.value.tail.value| < |s|
  {
    if s != "" && s[0] == '"' then
      match Cut(s[1..], '"')
      case None => None
      case Some(Pieces(text, after)) =>
        if after == "" then Some(Prefix(Quoted(text), None))
        else if after[0] == ',' then Some(Prefix(Quoted(text), Some(after[1..])))
        else None
    else
      match Cut(s, ',')
      case None => Some(Prefix(Bare(s), None))
      case Some(Pieces(text, after)) => Some(Prefix(Bare(text), Some(after)))
  }

  /** An attribute and what follows it. */
  datatype First = First(attribute: Attribute, tail: Option<string>)

  function ReadAttribute(s: string): (r: Option<First>)
    ensures r.Some? && r.value.tail.Some? ==> |r.value.tail.value| < |s|
  {
    match Cut(s, '=')
    case None => None
    case Some(Pieces(name, after)) =>
      match ReadValue(after)
      case None => None
      case Some(Prefix(value, tail)) =>
        if WellFormed(Attribute(name, value)) then Some(First(Attribute(name, value), tail)) else None
  }

  function ReadAttributes(s: string): Option<seq<Attribute>>
    decreases |s|
  {
    match ReadAttribute(s)
    case None => None
    case Some(First(a, None)) => Some([a])
    case Some(First(a, Some(tail))) =>
      match ReadAttributes(tail)
      case None => None
      case Some(others) => Some([a] + others)
  }

  lemma ReadQuoted(text: string, tail: Option<string>)
    requires '"' !in text
    ensures ReadValue(ValueText(Quoted(text)) + Follow(tail)) == Some(Prefix(Quoted(text), tail))
  {
    var s := ValueText(Quoted(text)) + Follow(tail);
    assert s[0] == '"' && s[1..] == text + ['"'] + Follow(tail);
    CutThere(text, '"', Follow(tail));
  }

  lemma ReadBare(text: string, tail: Option<string>)
    requires text != "" && text[0] != '"' && ',' !in text
    ensures ReadValue(ValueText(Bare(text)) + Follow(tail)) == Some(Prefix(Bare(text), tail))
  {
    var s := ValueText(Bare(text)) + Follow(tail);
    assert s[0] == text[0];
    if tail.Some? {
      assert s == text + [','] + tail.value;
      CutThere(text, ',', tail.value);
    } else {
      assert s == text;
    }
  }

  lemma ReadValueText(a: Attribute, tail: Option<string>)
    requires WellFormed(a)
    ensures ReadValue(ValueText(a.value) + Follow(tail)) == Some(Prefix(a.value, tail))
    ensures '=' !in a.name
  {
    match a.value
    case Quoted(text) => ReadQuoted(text, tail);
    case Bare(text) => ReadBare(text, tail);
  }

  /** One attribute is read off the front. */
  lemma ReadFirst(a: Attribute, tail: Option<string>)
    requires WellFormed(a)
    ensures ReadAttribute(AttributeText(a) + Follow(tail)) == Some(First(a, tail))
  {
    ReadValueText(a, tail);
    var after := ValueText(a.value) + Follow(tail);
    assert AttributeText(a) + Follow(tail) == a.name + ['='] + after;
    CutThere(a.name, '=', after);
  }

  /** Main result: every well-formed list of attributes, quoted commas included, is read
      back from its text. */
  lemma {:induction false} AttributesRoundTrip(attributes: seq<Attribute>)
    requires attributes != [] && forall i :: 0 <= i < |attributes| ==> WellFormed(attributes[i])
    ensures ReadAttributes(ListText(attributes)) == Some(attributes)
  {
    var a, others := attributes[0], attributes[1..];
    assert attributes == [a] + others;
    if others == [] {
      assert attributes == [a];
      ReadFirst(a, None);
    } else {
      AttributesRoundTrip(others);
      ReadFirst(a, Some(ListText(others)));
    }
  }

  lemma ValueReadOnce(s: string)
    requires ReadValue(s).Some?
    ensures s == ValueText(ReadValue(s).value.value) + Follow(ReadValue(s).value.tail)
  {
    if s != "" && s[0] == '"' {
      var cut := Cut(s[1..], '"').value;
      assert s == ValueText(Quoted(cut.head)) + cut.tail;
      if cut.tail != "" {
        assert cut.tail == "," + cut.tail[1..];
      }
    }
  }

  lemma Regroup(a: string, b: string, c: string)
    ensures (a + b) + c == a + (b + c)
  {}

  lemma FirstReadOnce(s: string)
    requires ReadAttribute(s).Some?
    ensures var First(a, tail) := ReadAttribute(s).value; WellFormed(a) && s == AttributeText(a) + Follow(tail)
  {
    var cut, first := Cut(s, '=').value, ReadAttribute(s).value;
    ValueReadOnce(cut.tail);
    Regroup(cut.head + "=", ValueText(first.attribute.value), Follow(first.tail));
  }

  /** Conversely, a text is only read as the attributes whose text it is. */
  lemma {:induction false} AttributesReadOnce(s: string)
    requires ReadAttributes(s).Some?
    ensures var r := ReadAttributes(s).value;
            r != [] && ListText(r) == s && forall i :: 0 <= i < |r| ==> WellFormed(r[i])
    decreases |s|
  {
    var First(a, tail) := ReadAttribute(s).value;
    FirstReadOnce(s);
    if tail.Some? {
      AttributesReadOnce(tail.value);
      var others := ReadAttributes(tail.value).value;
      assert ([a] + others)[1..] == others;
    }
  }
}
