/** The throwaway answer to an emulator's offer (webrtc.py), on the lines of the two descriptions. */
module Sdp {
  import opened Wrappers

  datatype Result<T> = Ok(value: T) | IndexError

  // Python's strings

  /** The characters at which str.splitlines breaks; CR LF is one break. */
  predicate IsBreak(c: char) {
    || c == '\n' || c == '\r' || c == '\U{000B}' || c == '\U{000C}' || c == '\U{001C}' || c == '\U{001D}'
    || c == '\U{001E}' || c == '\U{0085}' || c == '\U{2028}' || c == '\U{2029}'
  }

  ghost predicate Plain(line: string) {
    forall i :: 0 <= i < |line| ==> !IsBreak(line[i])
  }

  /** The length of the text before its first break. */
  function LineLength(text: string): (n: nat)
    ensures n <= |text|
    ensures forall i :: 0 <= i < n ==> !IsBreak(text[i])
    ensures n < |text| ==> IsBreak(text[n])
  {
    if text == "" || IsBreak(text[0]) then 0 else 1 + LineLength(text[1..])
  }

  function SplitLines(text: string): (lines: seq<string>)
    decreases |text|
  {
    if text == "" then [] else
    var n := LineLength(text);
    if n == |text| then [text]
    else if text[n] == '\r' && n + 1 < |text| && text[n + 1] == '\n' then [text[..n]] + SplitLines(text[n + 2..])
    else [text[..n]] + SplitLines(text[n + 1..])
  }

  /** Every line followed by CR LF: "\r\n".join(lines) + "\r\n" for a list with a line in it. */
  function Lines(lines: seq<string>): string {
    if lines == [] then "" else lines[0] + "\r\n" + Lines(lines[1..])
  }

  function Spaced(first: string, rest: string): string {
    first + " " + rest
  }

  /** " ".join(parts). */
  function Join(parts: seq<string>): string {
    if parts == [] then "" else if |parts| == 1 then parts[0] else Spaced(parts[0], Join(parts[1..]))
  }

  /** The length of the text before its first space. */
  function WordLength(text: string): (n: nat)
    ensures n <= |text|
    ensures forall i :: 0 <= i < n ==> text[i] != ' '
    ensures n < |text| ==> text[n] == ' '
  {
    if text == "" || text[0] == ' ' then 0 else 1 + WordLength(text[1..])
  }

  /** str.split(" "): never empty; two spaces in a row have an empty word between them. */
  function Words(text: string): (words: seq<string>)
    ensures words != []
    decreases |text|
  {
    var n := WordLength(text);
    if n == |text| then [text] else [text[..n]] + Words(text[n + 1..])
  }

  predicate StartsWith(text: string, prefix: string) {
    |prefix| <= |text| && text[..|prefix|] == prefix
  }

  // Sections

  /** The lines after (and with) each "m=" line. */
  function Sections(lines: seq<string>): (sections: seq<seq<string>>)
    ensures forall i :: 0 <= i < |sections| ==> sections[i] != [] && StartsWith(sections[i][0], "m=")
    decreases |lines|
  {
    if lines == [] then [] else
    var n := |lines| - 1;
    var before := Sections(lines[..n]);
    if StartsWith(lines[n], "m=") then before + [[lines[n]]]
    else if before == [] then []
    else before[..|before| - 1] + [before[|before| - 1] + [lines[n]]]
  }

  function MLine(section: seq<string>): string {
    if section == [] || |section[0]| < 2 then "" else section[0][2..]
  }

  function Media(section: seq<string>): string {
    MLine(section)[..WordLength(MLine(section))]
  }

  /** What str.partition(" ") leaves after the media: nothing without a space. */
  function Rest(section: seq<string>): string {
    var n := WordLength(MLine(section));
    if n == |MLine(section)| then "" else MLine(section)[n + 1..]
  }

  function Protocol(section: seq<string>): string {
    var words := Words(Rest(section));
    if |words| > 1 then words[1] else ""
  }

  function Formats(section: seq<string>): seq<string> {
    var words := Words(Rest(section));
    if |words| > 2 then words[2..] else []
  }

  /** The first line with the prefix, without it. */
  function Attribute(section: seq<string>, prefix: string): Option<string> {
    if section == [] then None
    else if StartsWith(section[0], prefix) then Some(section[0][|prefix|..])
    else Attribute(section[1..], prefix)
  }

  function Digits(n: nat): string {
    var digit := [(n % 10) as char + '0'];
    if n < 10 then digit else Digits(n / 10) + digit
  }

  function Mid(section: seq<string>, index: nat): string {
    var mid := Attribute(section, "a=mid:");
    if mid.Some? then mid.value else Digits(index)
  }

  function Mids(sections: seq<seq<string>>): (mids: seq<string>)
    ensures |mids| == |sections| && forall i :: 0 <= i < |mids| ==> mids[i] == Mid(sections[i], i)
  {
    seq(|sections|, i requires 0 <= i < |sections| => Mid(sections[i], i))
  }

  /** The m= line names a protocol, and a format unless the media is application. */
  predicate WellFormed(section: seq<string>) {
    && |Words(Rest(section))| > 1
    && (Media(section) != "application" ==> Formats(section) != [])
  }

  // The answer

  /** The made-up values of an answer. */
  datatype Values = Values(session: string, ufrag: string, pwd: string, fingerprint: string) {
    ghost predicate Valid() {
      Plain(session) && Plain(ufrag) && Plain(pwd) && Plain(fingerprint)
    }
  }

  function Header(v: Values, mids: seq<string>): seq<string> {
    ["v=0", "o=- " + Spaced(v.session, "2 IN IP4 127.0.0.1"), "s=-", "t=0 0", Spaced("a=group:BUNDLE", Join(mids)),
     "a=msid-semantic: WMS"]
  }

  /** The last part of an answer's m= line. */
  function AnswerFormats(section: seq<string>): string {
    if Media(section) == "application" then Join(Formats(section)) else FirstFormat(section)
  }

  function FirstFormat(section: seq<string>): string {
    if Formats(section) == [] then "" else Formats(section)[0]
  }

  function AnswerMLine(section: seq<string>): string {
    "m=" + Spaced(Media(section), Spaced("9", Spaced(Protocol(section), AnswerFormats(section))))
  }

  function Filter(section: seq<string>): seq<string> {
    if section == [] then [] else
    (if StartsWith(section[0], "a=sctp-port:") || StartsWith(section[0], "a=max-message-size:") then [section[0]] else [])
    + Filter(section[1..])
  }

  function FirstWith(section: seq<string>, prefix: string): seq<string> {
    if section == [] then [] else if StartsWith(section[0], prefix) then [section[0]] else FirstWith(section[1..], prefix)
  }

  function Tail(section: seq<string>): seq<string> {
    if Media(section) == "application" then Filter(section)
    else ["a=recvonly", "a=rtcp-mux"] + FirstWith(section, "a=rtpmap:" + FirstFormat(section) + " ")
  }

  /** The lines that every section of an answer has. */
  function Common(v: Values): seq<string> {
    ["c=IN IP4 0.0.0.0", "a=ice-ufrag:" + v.ufrag, "a=ice-pwd:" + v.pwd, "a=fingerprint:sha-256 " + v.fingerprint,
     "a=setup:active"]
  }

  function AfterCommon(section: seq<string>, mid: string): seq<string> {
    ["a=mid:" + mid] + Tail(section)
  }

  function AnswerSection(v: Values, section: seq<string>, mid: string): seq<string> {
    [AnswerMLine(section)] + (Common(v) + AfterCommon(section, mid))
  }

  ghost predicate AllWellFormed(sections: seq<seq<string>>) {
    forall i :: 0 <= i < |sections| ==> WellFormed(sections[i])
  }

  /** Each section with its index. */
  function Indexed(f: (seq<string>, nat) -> seq<string>, sections: seq<seq<string>>): (blocks: seq<seq<string>>)
    ensures |blocks| == |sections| && forall i :: 0 <= i < |blocks| ==> blocks[i] == f(sections[i], i)
  {
    seq(|sections|, i requires 0 <= i < |sections| => f(sections[i], i))
  }

  function Answering(v: Values): (seq<string>, nat) -> seq<string> {
    (section: seq<string>, i: nat) => AnswerSection(v, section, Mid(section, i))
  }

  function Blocks(v: Values, sections: seq<seq<string>>): seq<seq<string>> {
    Indexed(Answering(v), sections)
  }

  function Flat(blocks: seq<seq<string>>): seq<string>
    decreases |blocks|
  {
    if blocks == [] then [] else Flat(blocks[..|blocks| - 1]) + blocks[|blocks| - 1]
  }

  /** The answer and the mid of its candidate: an m= line with too few words, or none at all, is an error. */
  ghost function Answer(v: Values, offer: string): Result<(string, string)> {
    var sections := Sections(SplitLines(offer));
    if sections == [] || !AllWellFormed(sections) then IndexError
    else Ok((Lines(Header(v, Mids(sections)) + Flat(Blocks(v, sections))), Mids(sections)[0]))
  }

  // Lines split again

  lemma {:induction false} LineLengthOf(line: string, rest: string)
    requires Plain(line) && rest != "" && IsBreak(rest[0])
    ensures LineLength(line + rest) == |line|
  {
    if line == "" {
      assert line + rest == rest;
    } else {
      assert (line + rest)[1..] == line[1..] + rest;
      LineLengthOf(line[1..], rest);
    }
  }

  lemma {:induction false} SplitUndoesLines(lines: seq<string>)
    requires forall i :: 0 <= i < |lines| ==> Plain(lines[i])
    ensures SplitLines(Lines(lines)) == lines
  {
    if lines != [] {
      var line, rest := lines[0], Lines(lines[1..]);
      var text := Lines(lines);
      assert text == line + ("\r\n" + rest);
      LineLengthOf(line, "\r\n" + rest);
      assert text[|line|] == '\r' && text[|line| + 1] == '\n';
      assert text[..|line|] == line && text[|line| + 2..] == rest;
      SplitUndoesLines(lines[1..]);
    }
  }

  lemma {:induction false} SplitLinesArePlain(text: string)
    ensures forall i :: 0 <= i < |SplitLines(text)| ==> Plain(SplitLines(text)[i])
    decreases |text|
  {
    if text != "" {
      var n := LineLength(text);
      if n < |text| {
        SplitLinesArePlain(text[if text[n] == '\r' && n + 1 < |text| && text[n + 1] == '\n' then n + 2 else n + 1..]);
      }
    }
  }

  // Words split again

  lemma {:induction false} WordLengthOf(word: string, rest: string)
    requires ' ' !in word && (rest == "" || rest[0] == ' ')
    ensures WordLength(word + rest) == |word|
  {
    if word == "" {
      assert word + rest == rest;
    } else {
      assert (word + rest)[1..] == word[1..] + rest;
      WordLengthOf(word[1..], rest);
    }
  }

  lemma WordsCons(word: string, rest: string)
    requires ' ' !in word
    ensures Words(Spaced(word, rest)) == [word] + Words(rest)
  {
    var text := Spaced(word, rest);
    assert text == word + (" " + rest);
    WordLengthOf(word, " " + rest);
    assert text[..|word|] == word && text[|word| + 1..] == rest;
  }

  lemma {:induction false} WordsOfJoin(words: seq<string>)
    requires words != [] && forall i :: 0 <= i < |words| ==> ' ' !in words[i]
    ensures Words(Join(words)) == words
  {
    if |words| == 1 {
      WordLengthOf(words[0], "");
      assert words[0] + "" == words[0];
      assert words == [words[0]];
    } else {
      WordsCons(words[0], Join(words[1..]));
      WordsOfJoin(words[1..]);
    }
  }

  lemma {:induction false} WordsHaveNoSpace(text: string)
    ensures forall i :: 0 <= i < |Words(text)| ==> ' ' !in Words(text)[i]
    decreases |text|
  {
    var n := WordLength(text);
    if n < |text| {
      WordsHaveNoSpace(text[n + 1..]);
    }
  }

  // An answer's section read again

  lemma NoPrefix(text: string, prefix: string, k: nat)
    requires k < |prefix| && (k < |text| ==> text[k] != prefix[k])
    ensures !StartsWith(text, prefix)
  {
    if |prefix| <= |text| {
      assert text[..|prefix|][k] != prefix[k];
    }
  }

  lemma MLineReads(media: string, after: string, rest: seq<string>)
    requires ' ' !in media
    ensures var section := ["m=" + Spaced(media, after)] + rest; Media(section) == media && Rest(section) == after
  {
    var section := ["m=" + Spaced(media, after)] + rest;
    assert MLine(section) == media + (" " + after);
    WordLengthOf(media, " " + after);
  }

  lemma WholeMLineReads(media: string, protocol: string, formats: string, rest: seq<string>)
    requires ' ' !in media && ' ' !in protocol
    ensures var s := ["m=" + Spaced(media, Spaced("9", Spaced(protocol, formats)))] + rest;
            Media(s) == media && Protocol(s) == protocol && Formats(s) == Words(formats)
  {
    MLineReads(media, Spaced("9", Spaced(protocol, formats)), rest);
    RestReads(["m=" + Spaced(media, Spaced("9", Spaced(protocol, formats)))] + rest, "9", protocol, formats);
  }

  lemma TwoWordsFirst(first: string, second: string, rest: string)
    requires ' ' !in first && ' ' !in second
    ensures Words(Spaced(first, Spaced(second, rest))) == [first] + ([second] + Words(rest))
  {
    WordsCons(first, Spaced(second, rest));
    WordsCons(second, rest);
  }

  /** Protocol and formats are the second word and the ones after it. */
  lemma RestReads(section: seq<string>, port: string, protocol: string, formats: string)
    requires ' ' !in port && ' ' !in protocol && Rest(section) == Spaced(port, Spaced(protocol, formats))
    ensures Protocol(section) == protocol && Formats(section) == Words(formats)
  {
    TwoWordsFirst(port, protocol, formats);
    AfterTwoWords(section, port, protocol, Words(formats));
  }

  lemma AfterTwoWords(section: seq<string>, port: string, protocol: string, formats: seq<string>)
    requires Words(Rest(section)) == [port] + ([protocol] + formats) && formats != []
    ensures Protocol(section) == protocol && Formats(section) == formats
  {
    assert ([port] + ([protocol] + formats))[2..] == formats;
  }

  lemma ProtocolIsAWord(section: seq<string>)
    ensures ' ' !in Protocol(section)
  {
    WordsHaveNoSpace(Rest(section));
  }

  /** Media, protocol and formats of an answer's section are those of the offer's. */
  lemma AnswerSectionReads(v: Values, section: seq<string>, mid: string)
    requires WellFormed(section)
    ensures var a := AnswerSection(v, section, mid);
            && Media(a) == Media(section) && Protocol(a) == Protocol(section)
            && Formats(a) == Words(AnswerFormats(section))
  {
    ProtocolIsAWord(section);
    WholeMLineReads(Media(section), Protocol(section), AnswerFormats(section), Common(v) + AfterCommon(section, mid));
  }

  /** The formats of an answer are taken from its offer. */
  lemma FormatsFollow(section: seq<string>)
    requires WellFormed(section)
    ensures Media(section) != "application" ==> Words(AnswerFormats(section)) == [Formats(section)[0]]
    ensures Media(section) == "application" ==>
              Words(AnswerFormats(section)) == if Formats(section) == [] then [""] else Formats(section)
  {
    WordsHaveNoSpace(Rest(section));
    if Media(section) != "application" {
      WordsOfJoin([Formats(section)[0]]);
    } else if Formats(section) != [] {
      WordsOfJoin(Formats(section));
    }
  }

  lemma SkipLine(line: string, rest: seq<string>, prefix: string)
    requires !StartsWith(line, prefix)
    ensures Attribute([line] + rest, prefix) == Attribute(rest, prefix)
  {
    assert ([line] + rest)[1..] == rest;
  }

  lemma TakeLine(prefix: string, value: string, rest: seq<string>)
    ensures Attribute([prefix + value] + rest, prefix) == Some(value)
  {
    assert (prefix + value)[..|prefix|] == prefix && (prefix + value)[|prefix|..] == value;
  }

  lemma {:induction false} SkipLines(lines: seq<string>, rest: seq<string>, prefix: string)
    requires forall i :: 0 <= i < |lines| ==> !StartsWith(lines[i], prefix)
    ensures Attribute(lines + rest, prefix) == Attribute(rest, prefix)
  {
    if lines == [] {
      assert lines + rest == rest;
    } else {
      assert lines + rest == [lines[0]] + (lines[1..] + rest);
      SkipLine(lines[0], lines[1..] + rest, prefix);
      SkipLines(lines[1..], rest, prefix);
    }
  }

  /** None of the common lines is a mid or an m= line. */
  lemma CommonLines(v: Values)
    ensures forall i :: 0 <= i < |Common(v)| ==> !StartsWith(Common(v)[i], "a=mid:")
    ensures NoMLine(Common(v))
  {
    var c := Common(v);
    forall i | 0 <= i < |c| ensures !StartsWith(c[i], "m=") && !StartsWith(c[i], "a=mid:") {
      NoPrefix(c[i], "m=", 0);
      NoPrefix(c[i], "a=mid:", if i == 0 then 0 else 2);
    }
  }

  lemma AnswerMidReads(v: Values, section: seq<string>, mid: string, index: nat)
    ensures Mid(AnswerSection(v, section, mid), index) == mid
  {
    NoPrefix(AnswerMLine(section), "a=mid:", 0);
    SkipLine(AnswerMLine(section), Common(v) + AfterCommon(section, mid), "a=mid:");
    CommonLines(v);
    SkipLines(Common(v), AfterCommon(section, mid), "a=mid:");
    TakeLine("a=mid:", mid, Tail(section));
  }

  // The answer's sections

  ghost predicate NoMLine(lines: seq<string>) {
    forall i :: 0 <= i < |lines| ==> !StartsWith(lines[i], "m=")
  }

  ghost predicate OneMLine(block: seq<string>) {
    block != [] && StartsWith(block[0], "m=") && NoMLine(block[1..])
  }

  lemma {:induction false} SectionGrows(lines: seq<string>, m: string, rest: seq<string>)
    requires StartsWith(m, "m=") && NoMLine(rest)
    ensures Sections(lines + ([m] + rest)) == Sections(lines) + [[m] + rest]
    decreases |rest|
  {
    var all := lines + ([m] + rest);
    var n := |all| - 1;
    if rest == [] {
      assert all[..n] == lines && [m] + rest == [m];
    } else {
      var k := |rest| - 1;
      assert all[..n] == lines + ([m] + rest[..k]);
      SectionGrows(lines, m, rest[..k]);
      assert [m] + rest[..k] + [rest[k]] == [m] + rest;
    }
  }

  lemma {:induction false} NoSections(lines: seq<string>)
    requires NoMLine(lines)
    ensures Sections(lines) == []
    decreases |lines|
  {
    if lines != [] {
      NoSections(lines[..|lines| - 1]);
    }
  }

  lemma BlockGrows(lines: seq<string>, block: seq<string>)
    requires OneMLine(block)
    ensures Sections(lines + block) == Sections(lines) + [block]
  {
    assert block == [block[0]] + block[1..];
    SectionGrows(lines, block[0], block[1..]);
  }

  lemma FlatSnoc(blocks: seq<seq<string>>, last: seq<string>)
    ensures Flat(blocks + [last]) == Flat(blocks) + last
  {
    assert (blocks + [last])[..|blocks|] == blocks;
  }

  ghost predicate OneMLineEach(blocks: seq<seq<string>>) {
    forall i :: 0 <= i < |blocks| ==> OneMLine(blocks[i])
  }

  /** Blocks of one m= line each, after a header without one, are the sections. */
  lemma {:induction false} SectionsOfBlocks(header: seq<string>, blocks: seq<seq<string>>)
    requires NoMLine(header) && OneMLineEach(blocks)
    ensures Sections(header + Flat(blocks)) == blocks
    decreases |blocks|
  {
    if blocks == [] {
      NoSections(header);
      assert header + [] == header;
    } else {
      var before, last := blocks[..|blocks| - 1], blocks[|blocks| - 1];
      assert blocks == before + [last];
      assert Sections(header + Flat(before)) == before by {
        SectionsOfBlocks(header, before);
      }
      assert Flat(blocks) == Flat(before) + last by {
        FlatSnoc(before, last);
      }
      BlockGrows(header + Flat(before), last);
      assert header + Flat(blocks) == header + Flat(before) + last;
    }
  }

  lemma PrefixStarts(line: string, prefix: string)
    requires StartsWith(line, prefix) && prefix != ""
    ensures line[0] == prefix[0]
  {
    assert line[..|prefix|][0] == prefix[0];
  }

  lemma {:induction false} FilteredLines(section: seq<string>)
    ensures NoMLine(Filter(section)) && (AllPlain(section) ==> AllPlain(Filter(section)))
  {
    if section != [] {
      FilteredLines(section[1..]);
      var line := section[0];
      if StartsWith(line, "a=sctp-port:") {
        PrefixStarts(line, "a=sctp-port:");
        NoPrefix(line, "m=", 0);
      } else if StartsWith(line, "a=max-message-size:") {
        PrefixStarts(line, "a=max-message-size:");
        NoPrefix(line, "m=", 0);
      }
    }
  }

  lemma {:induction false} FirstLine(section: seq<string>, prefix: string)
    requires prefix != "" && prefix[0] == 'a'
    ensures NoMLine(FirstWith(section, prefix))
    ensures AllPlain(section) ==> AllPlain(FirstWith(section, prefix))
  {
    if section != [] {
      FirstLine(section[1..], prefix);
      if StartsWith(section[0], prefix) {
        PrefixStarts(section[0], prefix);
        NoPrefix(section[0], "m=", 0);
      }
    }
  }

  lemma TailLines(section: seq<string>)
    ensures NoMLine(Tail(section)) && (AllPlain(section) ==> AllPlain(Tail(section)))
  {
    if Media(section) == "application" {
      FilteredLines(section);
    } else {
      FirstLine(section, "a=rtpmap:" + FirstFormat(section) + " ");
      ReceiveLines();
    }
  }

  lemma ReceiveLines()
    ensures NoMLine(["a=recvonly", "a=rtcp-mux"]) && AllPlain(["a=recvonly", "a=rtcp-mux"])
  {
    NoPrefix("a=recvonly", "m=", 0);
    NoPrefix("a=rtcp-mux", "m=", 0);
  }

  lemma AfterCommonHasNoMLine(section: seq<string>, mid: string)
    ensures NoMLine(AfterCommon(section, mid))
  {
    TailLines(section);
    NoPrefix("a=mid:" + mid, "m=", 0);
  }

  lemma NoMLineSum(a: seq<string>, b: seq<string>)
    requires NoMLine(a) && NoMLine(b)
    ensures NoMLine(a + b)
  {
  }

  lemma AnswerSectionHasOneMLine(v: Values, section: seq<string>, mid: string)
    ensures OneMLine(AnswerSection(v, section, mid))
  {
    CommonLines(v);
    AfterCommonHasNoMLine(section, mid);
    NoMLineSum(Common(v), AfterCommon(section, mid));
    assert AnswerSection(v, section, mid)[1..] == Common(v) + AfterCommon(section, mid);
  }

  // The answer is plain lines

  ghost predicate AllPlain(lines: seq<string>) {
    forall i :: 0 <= i < |lines| ==> Plain(lines[i])
  }

  lemma PlainSum(a: string, b: string)
    requires Plain(a) && Plain(b)
    ensures Plain(a + b) && Plain(Spaced(a, b))
  {
  }

  lemma {:induction false} WordsArePlain(text: string)
    requires Plain(text)
    ensures AllPlain(Words(text))
    decreases |text|
  {
    var n := WordLength(text);
    if n < |text| {
      WordsArePlain(text[n + 1..]);
    }
  }

  lemma {:induction false} JoinIsPlain(words: seq<string>)
    requires AllPlain(words)
    ensures Plain(Join(words))
  {
    if |words| > 1 {
      JoinIsPlain(words[1..]);
      PlainSum(words[0], Join(words[1..]));
    }
  }

  lemma {:induction false} DigitsArePlain(n: nat)
    ensures Plain(Digits(n))
  {
    var c := (n % 10) as char + '0';
    assert '0' <= c <= '9';
    if n >= 10 {
      DigitsArePlain(n / 10);
    }
  }

  lemma {:induction false} AttributeIsPlain(section: seq<string>, prefix: string)
    requires AllPlain(section)
    ensures Attribute(section, prefix).Some? ==> Plain(Attribute(section, prefix).value)
  {
    if section != [] && !StartsWith(section[0], prefix) {
      AttributeIsPlain(section[1..], prefix);
    }
  }

  lemma MidIsPlain(section: seq<string>, index: nat)
    requires AllPlain(section)
    ensures Plain(Mid(section, index))
  {
    AttributeIsPlain(section, "a=mid:");
    DigitsArePlain(index);
  }

  lemma MLineIsPlain(section: seq<string>)
    requires AllPlain(section)
    ensures Plain(Media(section)) && Plain(Rest(section))
  {
    assert Plain(MLine(section));
  }

  lemma AnswerMLineIsPlain(section: seq<string>)
    requires AllPlain(section) && WellFormed(section)
    ensures Plain(AnswerMLine(section))
  {
    MLineIsPlain(section);
    WordsArePlain(Rest(section));
    JoinIsPlain(Formats(section));
    PlainSum(Protocol(section), AnswerFormats(section));
    var after := Spaced(Protocol(section), AnswerFormats(section));
    PlainSum("9", after);
    PlainSum(Media(section), Spaced("9", after));
    PlainSum("m=", Spaced(Media(section), Spaced("9", after)));
  }

  lemma CredentialsArePlain(v: Values)
    requires v.Valid()
    ensures Plain("a=ice-ufrag:" + v.ufrag) && Plain("a=ice-pwd:" + v.pwd)
  {
    PlainSum("a=ice-ufrag:", v.ufrag);
    PlainSum("a=ice-pwd:", v.pwd);
  }

  lemma FingerprintIsPlain(v: Values)
    requires v.Valid()
    ensures Plain("a=fingerprint:sha-256 " + v.fingerprint)
  {
    PlainSum("a=fingerprint:sha-256 ", v.fingerprint);
  }

  lemma FixedLinesArePlain()
    ensures Plain("c=IN IP4 0.0.0.0") && Plain("a=setup:active")
  {
  }

  lemma CommonIsPlain(v: Values)
    requires v.Valid()
    ensures AllPlain(Common(v))
  {
    CredentialsArePlain(v);
    FingerprintIsPlain(v);
    FixedLinesArePlain();
  }

  lemma PlainLines(a: seq<string>, b: seq<string>)
    requires AllPlain(a) && AllPlain(b)
    ensures AllPlain(a + b)
  {
  }

  lemma AfterCommonIsPlain(section: seq<string>, mid: string)
    requires AllPlain(section) && Plain(mid)
    ensures AllPlain(AfterCommon(section, mid))
  {
    TailLines(section);
    PlainSum("a=mid:", mid);
    PlainLines(["a=mid:" + mid], Tail(section));
  }

  lemma AnswerSectionIsPlain(v: Values, section: seq<string>, mid: string)
    requires v.Valid() && AllPlain(section) && WellFormed(section) && Plain(mid)
    ensures AllPlain(AnswerSection(v, section, mid))
  {
    AnswerMLineIsPlain(section);
    CommonIsPlain(v);
    AfterCommonIsPlain(section, mid);
    PlainLines(Common(v), AfterCommon(section, mid));
    PlainLines([AnswerMLine(section)], Common(v) + AfterCommon(section, mid));
  }

  lemma {:induction false} SectionsArePlain(lines: seq<string>)
    requires AllPlain(lines)
    ensures forall i :: 0 <= i < |Sections(lines)| ==> AllPlain(Sections(lines)[i])
    decreases |lines|
  {
    if lines != [] {
      SectionsArePlain(lines[..|lines| - 1]);
    }
  }

  lemma {:induction false} FlatIsPlain(blocks: seq<seq<string>>)
    requires forall i :: 0 <= i < |blocks| ==> AllPlain(blocks[i])
    ensures AllPlain(Flat(blocks))
    decreases |blocks|
  {
    if blocks != [] {
      FlatIsPlain(blocks[..|blocks| - 1]);
    }
  }

  lemma HeaderIsPlain(v: Values, mids: seq<string>)
    requires v.Valid() && AllPlain(mids)
    ensures AllPlain(Header(v, mids))
  {
    JoinIsPlain(mids);
    PlainSum("a=group:BUNDLE", Join(mids));
    PlainSum(v.session, "2 IN IP4 127.0.0.1");
    PlainSum("o=- ", Spaced(v.session, "2 IN IP4 127.0.0.1"));
  }

  lemma HeaderHasNoMLine(v: Values, mids: seq<string>)
    ensures NoMLine(Header(v, mids))
  {
    var h := Header(v, mids);
    forall i | 0 <= i < |h| ensures !StartsWith(h[i], "m=") {
      NoPrefix(h[i], "m=", 0);
    }
  }

  // The answer follows the offer

  /** One section of an answer against the offer's. */
  ghost predicate Accepts(answer: seq<string>, offer: seq<string>, index: nat) {
    && Media(answer) == Media(offer) && Protocol(answer) == Protocol(offer) && Mid(answer, index) == Mid(offer, index)
    && (Media(offer) != "application" ==> Formats(offer) != [] && Formats(answer) == [Formats(offer)[0]])
    && (Media(offer) == "application" ==> Formats(answer) == if Formats(offer) == [] then [""] else Formats(offer))
  }

  lemma SectionAccepts(v: Values, section: seq<string>, index: nat)
    requires WellFormed(section)
    ensures Accepts(AnswerSection(v, section, Mid(section, index)), section, index)
  {
    AnswerSectionReads(v, section, Mid(section, index));
    AnswerMidReads(v, section, Mid(section, index), index);
    FormatsFollow(section);
  }

  /** Every format of an accepted section is one that was offered, exactly when any was: an application section
      may name none, and then its answer has an empty one. */
  lemma FormatsWereOfferedIff(answer: seq<string>, offer: seq<string>, index: nat)
    requires Accepts(answer, offer, index)
    ensures (forall f :: f in Formats(answer) ==> f in Formats(offer)) <==> Formats(offer) != []
  {
    if Formats(offer) == [] {
      assert "" in Formats(answer);
    }
  }

  /** The lines of an answer, read again. */
  lemma AnswerLines(v: Values, offer: string)
    requires v.Valid() && Answer(v, offer).Ok?
    ensures var sections := Sections(SplitLines(offer));
            SplitLines(Answer(v, offer).value.0) == Header(v, Mids(sections)) + Flat(Blocks(v, sections))
  {
    var sections := Sections(SplitLines(offer));
    var mids, blocks := Mids(sections), Blocks(v, sections);
    SplitLinesArePlain(offer);
    SectionsArePlain(SplitLines(offer));
    forall i | 0 <= i < |mids| ensures Plain(mids[i]) && AllPlain(blocks[i]) {
      MidIsPlain(sections[i], i);
      AnswerSectionIsPlain(v, sections[i], mids[i]);
    }
    HeaderIsPlain(v, mids);
    FlatIsPlain(blocks);
    SplitUndoesLines(Header(v, mids) + Flat(blocks));
  }

  lemma AnswerSections(v: Values, offer: string)
    requires v.Valid() && Answer(v, offer).Ok?
    ensures Sections(SplitLines(Answer(v, offer).value.0)) == Blocks(v, Sections(SplitLines(offer)))
  {
    var sections := Sections(SplitLines(offer));
    var blocks := Blocks(v, sections);
    AnswerLines(v, offer);
    HeaderHasNoMLine(v, Mids(sections));
    forall i | 0 <= i < |blocks| ensures OneMLine(blocks[i]) {
      AnswerSectionHasOneMLine(v, sections[i], Mid(sections[i], i));
    }
    SectionsOfBlocks(Header(v, Mids(sections)), blocks);
  }

  lemma BlocksAccept(v: Values, sections: seq<seq<string>>)
    requires AllWellFormed(sections)
    ensures forall i :: 0 <= i < |sections| ==> Accepts(Blocks(v, sections)[i], sections[i], i)
  {
    forall i | 0 <= i < |sections| ensures Accepts(Blocks(v, sections)[i], sections[i], i) {
      SectionAccepts(v, sections[i], i);
    }
  }

  /** Section 6 of RFC 3264: the answer has one section for each of the offer's, in order, with the same
      media, protocol and mid and a format of the offer. */
  lemma AnswerFollowsOffer(v: Values, offer: string)
    requires v.Valid() && Answer(v, offer).Ok?
    ensures var answered := Sections(SplitLines(Answer(v, offer).value.0));
            var offered := Sections(SplitLines(offer));
            |answered| == |offered| && forall i :: 0 <= i < |offered| ==> Accepts(answered[i], offered[i], i)
  {
    AnswerSections(v, offer);
    BlocksAccept(v, Sections(SplitLines(offer)));
  }

  /** The group of an answer is exactly the mids of its offer, and its candidate names the first. */
  lemma AnswerNamesTheMids(v: Values, offer: string)
    requires v.Valid() && Answer(v, offer).Ok?
    ensures var lines := SplitLines(Answer(v, offer).value.0);
            var mids := Mids(Sections(SplitLines(offer)));
            && |lines| > 4 && lines[4] == Spaced("a=group:BUNDLE", Join(mids))
            && mids != [] && Answer(v, offer).value.1 == mids[0]
  {
    var sections := Sections(SplitLines(offer));
    AnswerLines(v, offer);
    GroupLine(v, Mids(sections), Flat(Blocks(v, sections)));
  }

  lemma GroupLine(v: Values, mids: seq<string>, body: seq<string>)
    ensures |Header(v, mids) + body| > 4 && (Header(v, mids) + body)[4] == Spaced("a=group:BUNDLE", Join(mids))
  {
  }

  /** The words of a BUNDLE line are the mids, for mids without a space. */
  lemma BundleNamesTheMids(line: string, group: string, mids: seq<string>)
    requires group == "a=group:BUNDLE" && line == Spaced(group, Join(mids))
    requires mids != [] && forall i :: 0 <= i < |mids| ==> ' ' !in mids[i]
    ensures Words(line) == [group] + mids
  {
    FirstWordThenJoined(group, mids);
  }

  lemma FirstWordThenJoined(word: string, words: seq<string>)
    requires ' ' !in word && words != [] && forall i :: 0 <= i < |words| ==> ' ' !in words[i]
    ensures Words(Spaced(word, Join(words))) == [word] + words
  {
    WordsOfJoin(words);
    WordsCons(word, Join(words));
  }

  // The loops

  /** One turn of the loop that collects the sections. */
  function Collect(sections: seq<seq<string>>, line: string): seq<seq<string>> {
    var s := if StartsWith(line, "m=") then sections + [[]] else sections;
    if s == [] then [] else s[..|s| - 1] + [s[|s| - 1] + [line]]
  }

  lemma SectionsStep(lines: seq<string>, n: nat)
    requires n < |lines|
    ensures Sections(lines[..n + 1]) == Collect(Sections(lines[..n]), lines[n])
  {
    assert lines[..n + 1][..n] == lines[..n];
    assert [] + [lines[n]] == [lines[n]];
  }

  method SectionsOf(offer: string) returns (sections: seq<seq<string>>)
    ensures sections == Sections(SplitLines(offer))
  {
    var lines := SplitLines(offer);
    sections := [];
    for i := 0 to |lines|
      invariant sections == Sections(lines[..i])
    {
      SectionsStep(lines, i);
      if StartsWith(lines[i], "m=") {
        sections := sections + [[]];
      }
      if sections != [] {
        sections := sections[..|sections| - 1] + [sections[|sections| - 1] + [lines[i]]];
      }
    }
    assert lines[..|lines|] == lines;
  }

  lemma FlatGrows(f: (seq<string>, nat) -> seq<string>, sections: seq<seq<string>>, n: nat)
    requires n < |sections|
    ensures Flat(Indexed(f, sections[..n + 1])) == Flat(Indexed(f, sections[..n])) + f(sections[n], n)
  {
    var blocks := Indexed(f, sections[..n]);
    assert Indexed(f, sections[..n + 1]) == blocks + [f(sections[n], n)];
    FlatSnoc(blocks, f(sections[n], n));
  }

  /** The lines of the sections as `f` answers them, or an error at the first that is not `ok`. */
  method AnswerBody(ok: seq<string> -> bool, f: (seq<string>, nat) -> seq<string>, sections: seq<seq<string>>)
    returns (lines: Result<seq<string>>)
    ensures lines.Ok? <==> forall i :: 0 <= i < |sections| ==> ok(sections[i])
    ensures lines.Ok? ==> lines.value == Flat(Indexed(f, sections))
  {
    var body := [];
    for i := 0 to |sections|
      invariant forall j :: 0 <= j < i ==> ok(sections[j])
      invariant body == Flat(Indexed(f, sections[..i]))
    {
      if !ok(sections[i]) {
        return IndexError;
      }
      FlatGrows(f, sections, i);
      body := body + f(sections[i], i);
    }
    assert sections[..|sections|] == sections;
    lines := Ok(body);
  }

  method ThrowawayAnswer(v: Values, offer: string) returns (answer: Result<(string, string)>)
    ensures answer == Answer(v, offer)
    ensures answer.Ok? <==> Sections(SplitLines(offer)) != [] && AllWellFormed(Sections(SplitLines(offer)))
  {
    var sections := SectionsOf(offer);
    var mids := Mids(sections);
    var lines := AnswerBody(WellFormed, Answering(v), sections);
    if lines.IndexError? || sections == [] {
      return IndexError;
    }
    answer := Ok((Lines(Header(v, mids) + lines.value), mids[0]));
  }
}
