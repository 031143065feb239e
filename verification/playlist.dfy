/** The master playlist: its text as the program writes it
    (internal/infrastructure/ffmpeg/encoder.go), and an independent reader of such texts
    that follows RFC 8216. */
module Playlists {
  import opened Options
  import opened Ladders
  import opened Scanning
  import opened AttributeLists

  const HEADER: string := "#EXTM3U"
  const VERSION: string := "#EXT-X-VERSION:3"
  const STREAM_INF: string := "#EXT-X-STREAM-INF:"

  // ------------------------------------------------------------------- the text

  function Bandwidth(v: Variant, hasAudio: bool): int
  {
    ParseBitrate(v.bitrate) + (if hasAudio then 128000 else 0)
  }

  function Codecs(hasAudio: bool): seq<string>
  {
    if hasAudio then ["avc1.640028", "mp4a.40.2"] else ["avc1.640028"]
  }

  function CodecText(hasAudio: bool): string
  {
    if hasAudio then "avc1.640028" + "," + "mp4a.40.2" else "avc1.640028"
  }

  function Attributes(v: Variant, hasAudio: bool): seq<Attribute>
  {
    StreamInf(PrintInt(Bandwidth(v, hasAudio)), Resolution(v.width, v.height), CodecText(hasAudio))
  }

  function StreamInf(bandwidth: string, resolution: string, codecs: string): seq<Attribute>
  {
    [Attribute("BANDWIDTH", Bare(bandwidth)),
     Attribute("RESOLUTION", Bare(resolution)),
     Attribute("CODECS", Quoted(codecs))]
  }

  function Uri(v: Variant): string { v.name + "/main.m3u8" }

  function Line(l: string): string { l + ['\n'] }

  /** An EXT-X-STREAM-INF tag and its URI line. */
  datatype Entry = Entry(list: string, uri: string)

  function EntryOf(v: Variant, hasAudio: bool): Entry { Entry(ListText(Attributes(v, hasAudio)), Uri(v)) }

  function Entries(vs: seq<Variant>, hasAudio: bool): seq<Entry>
  {
    if vs == [] then [] else [EntryOf(vs[0], hasAudio)] + Entries(vs[1..], hasAudio)
  }

  function EntryText(e: Entry): string { Line(STREAM_INF + e.list) + (Line(e.uri) + Line("")) }

  function Body(entries: seq<Entry>): string
  {
    if entries == [] then "" else EntryText(entries[0]) + Body(entries[1..])
  }

  function MasterText(vs: seq<Variant>, hasAudio: bool): string
  {
    Line(HEADER) + Line(VERSION) + Body(Entries(vs, hasAudio))
  }

  /** A comma, a name, an equals sign and a text, put together in either way. */
  lemma LabelText(start: string, name: string, text: string)
    requires start == "," + name + "="
    ensures "," + (name + "=" + text) == start + text
  {}

  lemma AttributesText(bandwidth: string, resolution: string, codecs: string)
    ensures ListText(StreamInf(bandwidth, resolution, codecs))
         == "BANDWIDTH=" + bandwidth + (",RESOLUTION=" + resolution + (",CODECS=" + ("\"" + codecs + "\"")))
  {
    var b, r := Attribute("BANDWIDTH", Bare(bandwidth)), Attribute("RESOLUTION", Bare(resolution));
    var c := Attribute("CODECS", Quoted(codecs));
    ThreeText(b, r, c);
    LabelText(",CODECS=", "CODECS", ValueText(c.value));
    LabelText(",RESOLUTION=", "RESOLUTION", resolution);
    Regroup(",", AttributeText(r), "," + AttributeText(c));
    assert "BANDWIDTH" + "=" == "BANDWIDTH=";
  }

  lemma ThreeText(a: Attribute, b: Attribute, c: Attribute)
    ensures ListText([a, b, c]) == AttributeText(a) + ("," + (AttributeText(b) + ("," + AttributeText(c))))
  {
    assert [b, c][1..] == [c] && [a, b, c][1..] == [b, c];
    assert ListText([c]) == AttributeText(c) + "" == AttributeText(c);
    assert ListText([b, c]) == AttributeText(b) + ("," + AttributeText(c));
  }

  lemma HeaderWritten()
    ensures "#EXTM3U\n" + "#EXT-X-VERSION:3\n" == Line(HEADER) + Line(VERSION)
  {
    assert "#EXTM3U\n" == Line(HEADER) && "#EXT-X-VERSION:3\n" == Line(VERSION);
  }

  lemma CodecsWritten()
    ensures "avc1.640028" + ",mp4a.40.2" == CodecText(true)
  {
    assert ",mp4a.40.2" == "," + "mp4a.40.2";
    Regroup("avc1.640028", ",", "mp4a.40.2");
  }

  lemma EntryEnd(uri: string)
    ensures uri + "\n\n" == Line(uri) + Line("")
  {}

  /** The file that is written, unless it cannot be made. */
  method GenerateMasterPlaylist(vs: seq<Variant>, hasAudio: bool, creatable: bool) returns (file: Option<string>)
    ensures file == if creatable then Some(MasterText(vs, hasAudio)) else None
  {
    if !creatable {
      return None;
    }
    var text := "#EXTM3U\n";
    text := text + "#EXT-X-VERSION:3\n";
    assert vs[0..] == vs;
    HeaderWritten();
    for i := 0 to |vs|
      invariant text + Body(Entries(vs[i..], hasAudio)) == MasterText(vs, hasAudio)
    {
      var v := vs[i];
      var bandwidth := ParseBitrate(v.bitrate);
      if hasAudio {
        bandwidth := bandwidth + 128000;
      }
      var codecStr := "avc1.640028";
      if hasAudio {
        codecStr := codecStr + ",mp4a.40.2";
        CodecsWritten();
      }
      var attributes := "BANDWIDTH=" + PrintInt(bandwidth)
                        + (",RESOLUTION=" + (PrintInt(v.width) + "x" + PrintInt(v.height))
                        + (",CODECS=" + ("\"" + codecStr + "\"")));
      var before := text;
      text := text + ("#EXT-X-STREAM-INF:" + attributes + "\n");
      text := text + (v.name + "/main.m3u8" + "\n\n");
      AttributesText(PrintInt(bandwidth), Resolution(v.width, v.height), codecStr);
      assert vs[i..][1..] == vs[i + 1..];
      EntryWritten(before, EntryOf(v, hasAudio), Entries(vs[i + 1..], hasAudio));
    }
    assert vs[|vs|..] == [] && text + "" == text;
    return Some(text);
  }

  lemma EntryWritten(before: string, e: Entry, others: seq<Entry>)
    ensures before + ("#EXT-X-STREAM-INF:" + e.list + "\n") + (e.uri + "\n\n") + Body(others)
         == before + Body([e] + others)
  {
    EntryEnd(e.uri);
    assert ([e] + others)[1..] == others;
    Regroup(before, Line(STREAM_INF + e.list), Line(e.uri) + Line(""));
    Regroup(before, EntryText(e), Body(others));
  }

  // ------------------------------------------------------------------ the reader

  /** Lines end with LF or CRLF (section 4.1). */
  function Chomp(l: string): string { if l != "" && l[|l| - 1] == '\r' then l[..|l| - 1] else l }

  function Lines(s: string): seq<string>
    decreases |s|
  {
    match Cut(s, '\n')
    case None => if s == "" then [] else [Chomp(s)]
    case Some(p) => [Chomp(p.head)] + Lines(p.tail)
  }

  datatype Stream = Stream(bandwidth: nat, width: nat, height: nat, codecs: seq<string>, uri: string)

  function Lookup(attributes: seq<Attribute>, name: string): Option<AttributeValue>
  {
    if attributes == [] then None
    else if attributes[0].name == name then Some(attributes[0].value)
    else Lookup(attributes[1..], name)
  }

  predicate NamesOnce(attributes: seq<Attribute>)
  {
    forall i, j :: 0 <= i < j < |attributes| ==> attributes[i].name != attributes[j].name
  }

  function ReadInteger(s: string): Option<nat>
  {
    if s != "" && Digits(s) == |s| then Some(Value(s, |s|)) else None
  }

  function ReadCodecs(s: string): seq<string>
    decreases |s|
  {
    match Cut(s, ',')
    case None => [s]
    case Some(p) => [p.head] + ReadCodecs(p.tail)
  }

  /** The value of a tag (section 4.3.4.2) with the URI line after it. */
  function ReadStream(list: string, uri: string): Option<Stream>
  {
    match ReadAttributes(list)
    case None => None
    case Some(attributes) => if NamesOnce(attributes) then StreamOf(attributes, uri) else None
  }

  function StreamOf(attributes: seq<Attribute>, uri: string): Option<Stream>
  {
    match (Lookup(attributes, "BANDWIDTH"), Lookup(attributes, "RESOLUTION"), Lookup(attributes, "CODECS"))
    case (Some(Bare(b)), Some(Bare(r)), Some(Quoted(c))) => MakeStream(b, r, c, uri)
    case _ => None
  }

  function MakeStream(bandwidth: string, resolution: string, codecs: string, uri: string): Option<Stream>
  {
    match Cut(resolution, 'x')
    case None => None
    case Some(p) =>
      match (ReadInteger(bandwidth), ReadInteger(p.head), ReadInteger(p.tail))
      case (Some(b), Some(w), Some(h)) => Some(Stream(b, w, h, ReadCodecs(codecs), uri))
      case _ => None
  }

  predicate IsUriLine(l: string) { l != "" && l[0] != '#' }

  function ReadStreams(lines: seq<string>): Option<seq<Stream>>
  {
    if lines == [] then Some([])
    else if STREAM_INF <= lines[0] then
      if |lines| < 2 || !IsUriLine(lines[1]) then None
      else
        match (ReadStream(lines[0][|STREAM_INF|..], lines[1]), ReadStreams(lines[2..]))
        case (Some(s), Some(others)) => Some([s] + others)
        case _ => None
    else if IsUriLine(lines[0]) then None
    else ReadStreams(lines[1..])  // blank, a comment or another tag
  }

  function ReadMaster(text: string): Option<seq<Stream>>
  {
    var lines := Lines(text);
    if lines != [] && lines[0] == HEADER then ReadStreams(lines[1..]) else None
  }

  // ------------------------------------------------------------------- round trip

  ghost predicate OneLine(s: string) { '\n' !in s && '\r' !in s }

  /** A name that keeps its URI line a URI line. */
  ghost predicate PlainName(name: string) { OneLine(name) && (name == "" || name[0] != '#') }

  function StreamFor(v: Variant, hasAudio: bool): Stream
    requires Bandwidth(v, hasAudio) >= 0
  {
    Stream(Bandwidth(v, hasAudio), v.width, v.height, Codecs(hasAudio), Uri(v))
  }

  lemma LinesOf(l: string, rest: string)
    requires OneLine(l)
    ensures Lines(Line(l) + rest) == [l] + Lines(rest)
  {
    CutThere(l, '\n', rest);
  }

  lemma PrintedDigits(z: int)
    ensures PrintInt(z) != "" && forall i :: 0 <= i < |PrintInt(z)| ==> IsDigit(PrintInt(z)[i]) || PrintInt(z)[i] == '-'
    ensures z >= 0 ==> AllDigits(PrintInt(z))
    ensures ReadInteger(PrintInt(z)) == if z >= 0 then Some(z) else None
  {
    DecimalDigits(if z < 0 then -z else z);
    if z >= 0 {
      DigitsStop(Decimal(z), "");
      assert Decimal(z) + "" == Decimal(z);
    }
  }

  lemma ResolutionCut(width: nat, height: nat)
    ensures Cut(Resolution(width, height), 'x') == Some(Pieces(PrintInt(width), PrintInt(height)))
  {
    PrintedDigits(width);
    CutThere(PrintInt(width), 'x', PrintInt(height));
  }

  lemma CodecsCut(hasAudio: bool)
    ensures ReadCodecs(CodecText(hasAudio)) == Codecs(hasAudio)
  {
    var video, audio := "avc1.640028", "mp4a.40.2";
    assert ',' !in video && ',' !in audio;
    SplitTwo(video, audio);
  }

  lemma SplitTwo(a: string, b: string)
    requires ',' !in a && ',' !in b
    ensures ReadCodecs(a) == [a] && ReadCodecs(a + "," + b) == [a, b]
  {
    assert ReadCodecs(a) == [a] && ReadCodecs(b) == [b];
    CutThere(a, ',', b);
  }

  ghost predicate BareText(s: string) { s != "" && forall i :: 0 <= i < |s| ==> BareChar(s[i]) }

  ghost predicate QuotedText(s: string) { forall i :: 0 <= i < |s| ==> QuotedChar(s[i]) }

  lemma NamesWellFormed(bandwidth: string, resolution: string, codecs: string)
    requires BareText(bandwidth) && BareText(resolution) && QuotedText(codecs)
    ensures WellFormed(Attribute("BANDWIDTH", Bare(bandwidth)))
    ensures WellFormed(Attribute("RESOLUTION", Bare(resolution)))
    ensures WellFormed(Attribute("CODECS", Quoted(codecs)))
  {}

  lemma StreamInfWellFormed(bandwidth: string, resolution: string, codecs: string)
    requires BareText(bandwidth) && BareText(resolution) && QuotedText(codecs)
    ensures var a := StreamInf(bandwidth, resolution, codecs);
            NamesOnce(a) && (forall i :: 0 <= i < |a| ==> WellFormed(a[i]))
  {
    NamesWellFormed(bandwidth, resolution, codecs);
  }

  lemma StreamInfLookups(bandwidth: string, resolution: string, codecs: string)
    ensures var a := StreamInf(bandwidth, resolution, codecs);
            && Lookup(a, "BANDWIDTH") == Some(Bare(bandwidth))
            && Lookup(a, "RESOLUTION") == Some(Bare(resolution))
            && Lookup(a, "CODECS") == Some(Quoted(codecs))
  {
    var a := StreamInf(bandwidth, resolution, codecs);
    assert a[1..] == [a[1], a[2]] && [a[1], a[2]][1..] == [a[2]];
    assert |a[0].name| == 9 && |a[1].name| == 10 && |a[2].name| == 6;
    assert Lookup([a[2]], "CODECS") == Some(Quoted(codecs));
    assert Lookup([a[1], a[2]], "CODECS") == Some(Quoted(codecs));
  }

  lemma StreamInfReadBack(bandwidth: string, resolution: string, codecs: string, uri: string)
    requires BareText(bandwidth) && BareText(resolution) && QuotedText(codecs)
    ensures ReadStream(ListText(StreamInf(bandwidth, resolution, codecs)), uri)
         == MakeStream(bandwidth, resolution, codecs, uri)
  {
    StreamInfWellFormed(bandwidth, resolution, codecs);
    AttributesRoundTrip(StreamInf(bandwidth, resolution, codecs));
    StreamInfLookups(bandwidth, resolution, codecs);
  }

  lemma NumberIsBare(z: int)
    ensures BareText(PrintInt(z))
  {
    PrintedDigits(z);
  }

  lemma ResolutionIsBare(width: nat, height: nat)
    ensures BareText(Resolution(width, height))
  {
    NumberIsBare(width);
    NumberIsBare(height);
    Joining(PrintInt(width), "x");
    Joining(PrintInt(width) + "x", PrintInt(height));
  }

  lemma Joining(a: string, b: string)
    requires BareText(a) && BareText(b)
    ensures BareText(a + b)
  {}

  lemma CodecsAreQuoted(hasAudio: bool)
    ensures QuotedText(CodecText(hasAudio))
  {}

  lemma TextsUsable(v: Variant, hasAudio: bool)
    ensures BareText(PrintInt(Bandwidth(v, hasAudio))) && BareText(Resolution(v.width, v.height))
    ensures QuotedText(CodecText(hasAudio))
  {
    NumberIsBare(Bandwidth(v, hasAudio));
    ResolutionIsBare(v.width, v.height);
    CodecsAreQuoted(hasAudio);
  }

  lemma StreamReadBack(v: Variant, hasAudio: bool)
    ensures ReadStream(ListText(Attributes(v, hasAudio)), Uri(v))
         == Expected(v, hasAudio)
  {
    TextsUsable(v, hasAudio);
    StreamInfReadBack(PrintInt(Bandwidth(v, hasAudio)), Resolution(v.width, v.height), CodecText(hasAudio), Uri(v));
    PrintedDigits(Bandwidth(v, hasAudio));
    PrintedDigits(v.width);
    PrintedDigits(v.height);
    ResolutionCut(v.width, v.height);
    CodecsCut(hasAudio);
  }

  lemma AttributeOneLine(a: Attribute)
    requires WellFormed(a)
    ensures OneLine(AttributeText(a))
  {}

  lemma {:induction false} ListOneLine(attributes: seq<Attribute>)
    requires attributes != [] && forall i :: 0 <= i < |attributes| ==> WellFormed(attributes[i])
    ensures OneLine(ListText(attributes))
  {
    AttributeOneLine(attributes[0]);
    if attributes[1..] != [] {
      ListOneLine(attributes[1..]);
    }
  }

  ghost predicate Usable(e: Entry) { OneLine(e.list) && OneLine(e.uri) && IsUriLine(e.uri) }

  lemma EntryLines(e: Entry, rest: string)
    requires Usable(e)
    ensures Lines(EntryText(e) + rest) == [STREAM_INF + e.list] + ([e.uri] + ([""] + Lines(rest)))
  {
    Regroup(Line(STREAM_INF + e.list), Line(e.uri) + Line(""), rest);
    Regroup(Line(e.uri), Line(""), rest);
    TagOneLine(e.list);
    LinesOf(STREAM_INF + e.list, Line(e.uri) + (Line("") + rest));
    LinesOf(e.uri, Line("") + rest);
    LinesOf("", rest);
  }

  lemma TagOneLine(list: string)
    requires OneLine(list)
    ensures OneLine(STREAM_INF + list) && STREAM_INF <= STREAM_INF + list && (STREAM_INF + list)[|STREAM_INF|..] == list
  {}

  /** Both parts or nothing. */
  function Joined(first: Option<Stream>, others: Option<seq<Stream>>): Option<seq<Stream>>
  {
    if first.Some? && others.Some? then Some([first.value] + others.value) else None
  }

  lemma EntryRead(e: Entry, rest: seq<string>)
    requires Usable(e)
    ensures ReadStreams([STREAM_INF + e.list] + ([e.uri] + ([""] + rest)))
         == Joined(ReadStream(e.list, e.uri), ReadStreams(rest))
  {
    var lines := [STREAM_INF + e.list] + ([e.uri] + ([""] + rest));
    TagOneLine(e.list);
    assert lines[0] == STREAM_INF + e.list && lines[1] == e.uri;
    assert lines[2..] == [""] + rest;
    BlankRead(rest);
  }

  lemma BlankRead(rest: seq<string>)
    ensures ReadStreams([""] + rest) == ReadStreams(rest)
  {
    assert ([""] + rest)[1..] == rest;
  }

  lemma HeadRead(rest: seq<string>)
    ensures var lines := [HEADER] + ([VERSION] + rest);
            lines[0] == HEADER && ReadStreams(lines[1..]) == ReadStreams(rest)
  {
    var lines := [HEADER] + ([VERSION] + rest);
    assert lines[1..] == [VERSION] + rest && ([VERSION] + rest)[1..] == rest;
    assert VERSION[7] == 'V' && STREAM_INF[7] == 'S';
  }

  lemma TwoLines(a: string, b: string, body: string)
    requires OneLine(a) && OneLine(b)
    ensures Lines(Line(a) + Line(b) + body) == [a] + ([b] + Lines(body))
  {
    Regroup(Line(a), Line(b), body);
    LinesOf(a, Line(b) + body);
    LinesOf(b, body);
  }

  lemma HeadOneLine()
    ensures OneLine(HEADER) && OneLine(VERSION)
  {}

  /** What is read from each entry, if all can be read. */
  function ReadEntries(entries: seq<Entry>): Option<seq<Stream>>
  {
    if entries == [] then Some([])
    else Joined(ReadStream(entries[0].list, entries[0].uri), ReadEntries(entries[1..]))
  }

  lemma {:induction false} BodyRead(entries: seq<Entry>)
    requires forall i :: 0 <= i < |entries| ==> Usable(entries[i])
    ensures ReadStreams(Lines(Body(entries))) == ReadEntries(entries)
  {
    if entries == [] {
      assert Lines("") == [];
    } else {
      BodyRead(entries[1..]);
      EntryLines(entries[0], Body(entries[1..]));
      EntryRead(entries[0], Lines(Body(entries[1..])));
    }
  }

  ghost predicate Readable(vs: seq<Variant>, hasAudio: bool)
  {
    forall i :: 0 <= i < |vs| ==> Bandwidth(vs[i], hasAudio) >= 0
  }

  /** What a reader must learn of a variant. */
  ghost predicate Presents(s: Stream, v: Variant, hasAudio: bool)
  {
    && s.bandwidth == ParseBitrate(v.bitrate) + (if hasAudio then 128_000 else 0)
    && s.width == v.width && s.height == v.height && s.uri == v.name + "/main.m3u8"
    && s.codecs == if hasAudio then ["avc1.640028", "mp4a.40.2"] else ["avc1.640028"]
  }

  function Streams(vs: seq<Variant>, hasAudio: bool): seq<Stream>
    requires Readable(vs, hasAudio)
  {
    seq(|vs|, i requires 0 <= i < |vs| => StreamFor(vs[i], hasAudio))
  }

  lemma StreamInfOneLine(bandwidth: string, resolution: string, codecs: string)
    requires BareText(bandwidth) && BareText(resolution) && QuotedText(codecs)
    ensures OneLine(ListText(StreamInf(bandwidth, resolution, codecs)))
  {
    StreamInfWellFormed(bandwidth, resolution, codecs);
    ListOneLine(StreamInf(bandwidth, resolution, codecs));
  }

  lemma UriIsLine(name: string)
    requires PlainName(name)
    ensures OneLine(name + "/main.m3u8") && IsUriLine(name + "/main.m3u8")
  {
    assert (name + "/main.m3u8")[0] == if name == "" then '/' else name[0];
  }

  lemma EntryUsable(v: Variant, hasAudio: bool)
    requires PlainName(v.name)
    ensures Usable(EntryOf(v, hasAudio))
  {
    TextsUsable(v, hasAudio);
    StreamInfOneLine(PrintInt(Bandwidth(v, hasAudio)), Resolution(v.width, v.height), CodecText(hasAudio));
    UriIsLine(v.name);
  }

  lemma {:induction false} EntriesUsable(vs: seq<Variant>, hasAudio: bool)
    requires forall i :: 0 <= i < |vs| ==> PlainName(vs[i].name)
    ensures forall i :: 0 <= i < |Entries(vs, hasAudio)| ==> Usable(Entries(vs, hasAudio)[i])
  {
    if vs != [] {
      EntryUsable(vs[0], hasAudio);
      EntriesUsable(vs[1..], hasAudio);
    }
  }

  /** What should be read from one variant. */
  function Expected(v: Variant, hasAudio: bool): Option<Stream>
  {
    if Bandwidth(v, hasAudio) >= 0 then Some(StreamFor(v, hasAudio)) else None
  }

  function ExpectedAll(vs: seq<Variant>, hasAudio: bool): Option<seq<Stream>>
  {
    if vs == [] then Some([]) else Joined(Expected(vs[0], hasAudio), ExpectedAll(vs[1..], hasAudio))
  }

  lemma {:induction false} EntriesReadBack(vs: seq<Variant>, hasAudio: bool)
    ensures ReadEntries(Entries(vs, hasAudio)) == ExpectedAll(vs, hasAudio)
  {
    if vs != [] {
      EntriesReadBack(vs[1..], hasAudio);
      StreamReadBack(vs[0], hasAudio);
      assert Entries(vs, hasAudio)[1..] == Entries(vs[1..], hasAudio);
    }
  }

  lemma ReadableParts(vs: seq<Variant>, hasAudio: bool)
    requires vs != []
    ensures Readable(vs, hasAudio) <==> Bandwidth(vs[0], hasAudio) >= 0 && Readable(vs[1..], hasAudio)
  {
    assert vs == [vs[0]] + vs[1..];
  }

  lemma {:induction false} AllOrNothing(vs: seq<Variant>, hasAudio: bool)
    ensures Readable(vs, hasAudio) ==> ExpectedAll(vs, hasAudio) == Some(Streams(vs, hasAudio))
    ensures !Readable(vs, hasAudio) ==> ExpectedAll(vs, hasAudio) == None
  {
    if vs != [] {
      var v, others := vs[0], vs[1..];
      AllOrNothing(others, hasAudio);
      ReadableParts(vs, hasAudio);
      if Readable(vs, hasAudio) {
        assert Streams(vs, hasAudio) == [StreamFor(v, hasAudio)] + Streams(others, hasAudio);
      }
    }
  }

  /** Main result, round trip: a reader that follows the standard gets from the text
      every variant in order, with bandwidth, resolution, codecs and URI; a text in
      which some bitrate is negative it rejects. */
  lemma MasterRoundTrip(vs: seq<Variant>, hasAudio: bool)
    requires forall i :: 0 <= i < |vs| ==> PlainName(vs[i].name)
    ensures Readable(vs, hasAudio) ==> ReadMaster(MasterText(vs, hasAudio)) == Some(Streams(vs, hasAudio))
    ensures !Readable(vs, hasAudio) ==> ReadMaster(MasterText(vs, hasAudio)) == None
  {
    var body := Body(Entries(vs, hasAudio));
    EntriesUsable(vs, hasAudio);
    BodyRead(Entries(vs, hasAudio));
    EntriesReadBack(vs, hasAudio);
    AllOrNothing(vs, hasAudio);
    HeadOneLine();
    TwoLines(HEADER, VERSION, body);
    HeadRead(Lines(body));
  }

  /** The text begins with the tag that makes it a playlist, and its version. */
  lemma TextBegins(vs: seq<Variant>, hasAudio: bool)
    ensures var lines := Lines(MasterText(vs, hasAudio));
            |lines| >= 2 && lines[0] == "#EXTM3U" && lines[1] == "#EXT-X-VERSION:3"
  {
    HeadOneLine();
    TwoLines(HEADER, VERSION, Body(Entries(vs, hasAudio)));
  }

  /** The streams present the variants one by one. */
  ghost predicate AllPresented(streams: seq<Stream>, vs: seq<Variant>, hasAudio: bool)
  {
    |streams| == |vs| && forall k :: 0 <= k < |vs| ==> Presents(streams[k], vs[k], hasAudio)
  }

  lemma StreamsPresent(vs: seq<Variant>, hasAudio: bool)
    requires Readable(vs, hasAudio)
    ensures AllPresented(Streams(vs, hasAudio), vs, hasAudio)
  {}

  /** When the text can be read, and that is when no bandwidth is negative, the reader
      learns of every variant its bandwidth, frame, codecs and URI. */
  lemma PlaylistPresents(vs: seq<Variant>, hasAudio: bool)
    requires forall i :: 0 <= i < |vs| ==> PlainName(vs[i].name)
    ensures var r := ReadMaster(MasterText(vs, hasAudio)); r.Some? ==> AllPresented(r.value, vs, hasAudio)
  {
    MasterRoundTrip(vs, hasAudio);
    if Readable(vs, hasAudio) {
      StreamsPresent(vs, hasAudio);
    }
  }

  lemma ReadableMeans(vs: seq<Variant>, hasAudio: bool)
    ensures Readable(vs, hasAudio)
       <==> forall k :: 0 <= k < |vs| ==> ParseBitrate(vs[k].bitrate) + (if hasAudio then 128_000 else 0) >= 0
  {}

  // -------------------------------------------------------------------- the ladder

  /** Some rungs of the ladder, in its order. */
  ghost predicate FromLadder(vs: seq<Variant>)
  {
    Climbing(vs) && forall i :: 0 <= i < |vs| ==> vs[i] in LADDER
  }

  /** The bitrates of the ladder, in units of 100 kbit/s. */
  const RATES: seq<nat> := [4, 8, 12, 25, 50, 80, 150]

  lemma TimesTen(m: nat)
    requires m > 0
    ensures Decimal(10 * m) == Decimal(m) + [DigitOf(0)]
  {}

  lemma TwoZeros(d: string, zero: char)
    requires zero == '0'
    ensures d + "00k" == d + [zero] + [zero] + "k"
  {}

  lemma Hundreds(m: nat)
    requires m > 0
    ensures Decimal(m) + "00k" == Decimal(100 * m) + "k"
  {
    TimesTen(m);
    TimesTen(10 * m);
    TwoZeros(Decimal(m), DigitOf(0));
  }

  lemma ShortDecimals(i: nat)
    requires i < 3
    ensures LADDER[i].bitrate == Decimal(RATES[i]) + "00k"
  {
    assert Decimal(4) == "4" && Decimal(8) == "8" && Decimal(12) == "12";
  }

  lemma LongDecimals(i: nat)
    requires 3 <= i < |LADDER|
    ensures |RATES| == |LADDER| && LADDER[i].bitrate == Decimal(RATES[i]) + "00k"
  {
    assert Decimal(25) == "25" && Decimal(50) == "50" && Decimal(80) == "80" && Decimal(150) == "150";
  }

  lemma LadderBitrates(i: nat)
    requires i < |LADDER|
    ensures |LADDER| == |RATES| && ParseBitrate(LADDER[i].bitrate) == 100_000 * RATES[i]
  {
    if i < 3 {
      ShortDecimals(i);
    } else {
      LongDecimals(i);
    }
    Hundreds(RATES[i]);
    BitrateRoundTrip(100 * RATES[i], "k");
  }

  /** The numbers of the ladder. */
  lemma LadderNumbers(i: nat)
    requires i < |LADDER|
    ensures |LADDER| == 7
    ensures ParseBitrate(LADDER[i].bitrate)
         == [400_000, 800_000, 1_200_000, 2_500_000, 5_000_000, 8_000_000, 15_000_000][i]
    ensures LADDER[i].height == [240, 360, 480, 720, 1080, 1440, 2160][i]
    ensures LADDER[i].width == [426, 640, 854, 1280, 1920, 2560, 3840][i]
  {
    LadderBitrates(i);
  }

  /** The table of the separate encoder: the ladder's frames, its own rate on top. */
  lemma SeparateNumbers(i: nat)
    requires i < |AV_TABLE|
    ensures |AV_TABLE| == |LADDER|
    ensures AV_TABLE[i].width == LADDER[i].width && AV_TABLE[i].height == LADDER[i].height
    ensures AV_TABLE[i].kbps == [400, 800, 1200, 2500, 5000, 8000, 12000][i]
    ensures i < 6 ==> AV_TABLE[i].name == LADDER[i].name && AV_TABLE[i].bitrate == LADDER[i].bitrate
    ensures i == 6 ==> AV_TABLE[i].name == "4k" && AV_TABLE[i].bitrate == "12000k"
  {}

  lemma LadderNames(i: nat)
    requires i < |LADDER|
    ensures LADDER[i].name == ["240p", "360p", "480p", "720p", "1080p", "1440p", "4K"][i]
  {}

  lemma LadderNamePlain(i: nat)
    requires i < |LADDER|
    ensures PlainName(LADDER[i].name)
  {}

  lemma LadderClimbs(i: nat, j: nat)
    requires i < |LADDER| && j < |LADDER|
    ensures LADDER[i].height < LADDER[j].height <==> i < j
    ensures i < j ==> RATES[i] < RATES[j]
  {}

  lemma RungUsable(v: Variant, hasAudio: bool) returns (i: nat)
    requires v in LADDER
    ensures i < |LADDER| && v == LADDER[i]
    ensures Bandwidth(v, hasAudio) == 100_000 * RATES[i] + (if hasAudio then 128000 else 0)
    ensures PlainName(v.name)
  {
    i :| 0 <= i < |LADDER| && LADDER[i] == v;
    LadderBitrates(i);
    LadderNamePlain(i);
  }

  lemma BandwidthClimbs(v: Variant, w: Variant, hasAudio: bool)
    requires v in LADDER && w in LADDER && v.height < w.height
    ensures 0 < Bandwidth(v, hasAudio) < Bandwidth(w, hasAudio)
  {
    var i := RungUsable(v, hasAudio);
    var j := RungUsable(w, hasAudio);
    LadderClimbs(i, j);
  }

  lemma LadderUsable(vs: seq<Variant>, hasAudio: bool)
    requires FromLadder(vs)
    ensures Readable(vs, hasAudio) && forall i :: 0 <= i < |vs| ==> PlainName(vs[i].name)
  {
    forall i | 0 <= i < |vs| ensures Bandwidth(vs[i], hasAudio) >= 0 && PlainName(vs[i].name) {
      var k := RungUsable(vs[i], hasAudio);
    }
  }

  /** Main result: the playlist of any selection of rungs is read back in full, and its
      bandwidths strictly increase. */
  lemma LadderPlaylist(vs: seq<Variant>, hasAudio: bool)
    requires FromLadder(vs)
    ensures Readable(vs, hasAudio) && ReadMaster(MasterText(vs, hasAudio)) == Some(Streams(vs, hasAudio))
    ensures forall i, j :: 0 <= i < j < |vs| ==> Streams(vs, hasAudio)[i].bandwidth < Streams(vs, hasAudio)[j].bandwidth
  {
    LadderUsable(vs, hasAudio);
    MasterRoundTrip(vs, hasAudio);
    forall i, j | 0 <= i < j < |vs| ensures Streams(vs, hasAudio)[i].bandwidth < Streams(vs, hasAudio)[j].bandwidth {
      BandwidthClimbs(vs[i], vs[j], hasAudio);
    }
  }

  /** Main result: the text determines the selection, and whether there was audio. */
  lemma TextDeterminesVariants(vs: seq<Variant>, ws: seq<Variant>, audio: bool, audio': bool)
    requires FromLadder(vs) && FromLadder(ws) && MasterText(vs, audio) == MasterText(ws, audio')
    ensures vs == ws && (vs != [] ==> audio == audio')
  {
    LadderPlaylist(vs, audio);
    LadderPlaylist(ws, audio');
    var s, t := Streams(vs, audio), Streams(ws, audio');
    assert s == t && |vs| == |s| == |t| == |ws|;
    forall i | 0 <= i < |vs| ensures vs[i] == ws[i] && audio == audio' {
      assert s[i].height == t[i].height && |s[i].codecs| == |t[i].codecs|;
      var k := RungUsable(vs[i], audio);
      var l := RungUsable(ws[i], audio');
      LadderClimbs(k, l);
      LadderClimbs(l, k);
    }
  }
}
