/** The lines of an answer's section after its m= line, read again by name. */
module SdpLines {
  import opened Wrappers
  import opened Sdp

  /** The lines that hold what the data channel needs. */
  predicate IsChannelLine(line: string) {
    StartsWith(line, "a=sctp-port:") || StartsWith(line, "a=max-message-size:")
  }

  function Select(keep: string -> bool, lines: seq<string>): seq<string> {
    if lines == [] then [] else (if keep(lines[0]) then [lines[0]] else []) + Select(keep, lines[1..])
  }

  function RtpMap(format: string): string {
    "a=rtpmap:" + format + " "
  }

  /** The section takes part in no media of its own: discarded port, the made-up ICE and DTLS values, the active
      side; a data channel has the lines of the offer, audio and video receive only, with the offered codec's map. */
  ghost predicate Describes(v: Values, answer: seq<string>, offer: seq<string>) {
    && Words(Rest(answer))[0] == "9"
    && Attribute(answer, "a=ice-ufrag:") == Some(v.ufrag)
    && Attribute(answer, "a=ice-pwd:") == Some(v.pwd)
    && Attribute(answer, "a=fingerprint:sha-256 ") == Some(v.fingerprint)
    && Attribute(answer, "a=setup:") == Some("active")
    && (Media(offer) == "application" ==> Select(IsChannelLine, answer) == Select(IsChannelLine, offer))
    && (Media(offer) != "application" ==>
          && "a=recvonly" in answer && "a=rtcp-mux" in answer && Formats(offer) != []
          && Attribute(answer, RtpMap(Formats(offer)[0])) == Attribute(offer, RtpMap(Formats(offer)[0])))
  }

  lemma NoneStarts(lines: seq<string>, prefix: string, k: nat)
    requires k < |prefix| && forall i :: 0 <= i < |lines| ==> k < |lines[i]| && lines[i][k] != prefix[k]
    ensures forall i :: 0 <= i < |lines| ==> !StartsWith(lines[i], prefix)
  {
    forall i | 0 <= i < |lines| ensures !StartsWith(lines[i], prefix) {
      NoPrefix(lines[i], prefix, k);
    }
  }

  /** The first line with the prefix is found behind lines without it. */
  lemma Found(before: seq<string>, prefix: string, value: string, after: seq<string>)
    requires forall i :: 0 <= i < |before| ==> !StartsWith(before[i], prefix)
    ensures Attribute(before + ([prefix + value] + after), prefix) == Some(value)
  {
    SkipLines(before, [prefix + value] + after, prefix);
    TakeLine(prefix, value, after);
  }

  lemma Parts<T>(m: T, a: T, b: T, c: T, d: T, e: T, rest: seq<T>)
    ensures [m] + ([a, b, c, d, e] + rest) == [m, a] + ([b] + ([c, d, e] + rest))
    ensures [m] + ([a, b, c, d, e] + rest) == [m, a, b] + ([c] + ([d, e] + rest))
    ensures [m] + ([a, b, c, d, e] + rest) == [m, a, b, c] + ([d] + ([e] + rest))
    ensures [m] + ([a, b, c, d, e] + rest) == [m, a, b, c, d] + ([e] + rest)
    ensures [m] + ([a, b, c, d, e] + rest) == [m, a, b, c, d, e] + rest
  {
  }

  lemma CredentialsRead(v: Values, m: string, rest: seq<string>)
    requires m != "" && m[0] == 'm'
    ensures Attribute([m] + (Common(v) + rest), "a=ice-ufrag:") == Some(v.ufrag)
    ensures Attribute([m] + (Common(v) + rest), "a=ice-pwd:") == Some(v.pwd)
  {
    var c, u, p := "c=IN IP4 0.0.0.0", "a=ice-ufrag:" + v.ufrag, "a=ice-pwd:" + v.pwd;
    var f, s := "a=fingerprint:sha-256 " + v.fingerprint, "a=setup:active";
    Parts(m, c, u, p, f, s, rest);
    NoneStarts([m, c], "a=ice-ufrag:", 0);
    Found([m, c], "a=ice-ufrag:", v.ufrag, [p, f, s] + rest);
    NoneStarts([m, c], "a=ice-pwd:", 0);
    NoneStarts([u], "a=ice-pwd:", 6);
    NoneStartsOfMore([m, c], [u], [m, c, u], "a=ice-pwd:");
    Found([m, c, u], "a=ice-pwd:", v.pwd, [f, s] + rest);
  }

  lemma NoneStartsOfMore(a: seq<string>, b: seq<string>, all: seq<string>, prefix: string)
    requires forall i :: 0 <= i < |a| ==> !StartsWith(a[i], prefix)
    requires forall i :: 0 <= i < |b| ==> !StartsWith(b[i], prefix)
    requires all == a + b
    ensures forall i :: 0 <= i < |all| ==> !StartsWith(all[i], prefix)
  {
  }

  lemma DtlsReads(v: Values, m: string, rest: seq<string>)
    requires m != "" && m[0] == 'm'
    ensures Attribute([m] + (Common(v) + rest), "a=fingerprint:sha-256 ") == Some(v.fingerprint)
    ensures Attribute([m] + (Common(v) + rest), "a=setup:") == Some("active")
  {
    var c, u, p := "c=IN IP4 0.0.0.0", "a=ice-ufrag:" + v.ufrag, "a=ice-pwd:" + v.pwd;
    var f, s := "a=fingerprint:sha-256 " + v.fingerprint, "a=setup:active";
    Parts(m, c, u, p, f, s, rest);
    NoneStarts([m, c], "a=fingerprint:sha-256 ", 0);
    NoneStarts([u, p], "a=fingerprint:sha-256 ", 2);
    NoneStartsOfMore([m, c], [u, p], [m, c, u, p], "a=fingerprint:sha-256 ");
    Found([m, c, u, p], "a=fingerprint:sha-256 ", v.fingerprint, [s] + rest);
    NoneStarts([m, c], "a=setup:", 0);
    NoneStarts([u, p, f], "a=setup:", 2);
    NoneStartsOfMore([m, c], [u, p, f], [m, c, u, p, f], "a=setup:");
    assert "a=setup:" + "active" == s;
    Found([m, c, u, p, f], "a=setup:", "active", rest);
  }

  /** No line up to the mid starts like those that the rest of a section holds. */
  lemma HeadStartsOtherwise(v: Values, m: string, mid: string, prefix: string)
    requires m != "" && m[0] == 'm' && |prefix| > 3 && prefix[0] == 'a'
    requires prefix[2] == 'r' || (prefix[2] == 's' && prefix[3] == 'c') || (prefix[2] == 'm' && prefix[3] == 'a')
    ensures forall i :: 0 <= i < |[m] + (Common(v) + ["a=mid:" + mid])| ==>
      !StartsWith(([m] + (Common(v) + ["a=mid:" + mid]))[i], prefix)
  {
    var head := [m] + (Common(v) + ["a=mid:" + mid]);
    forall i | 0 <= i < |head| ensures !StartsWith(head[i], prefix) {
      if i <= 1 {
        NoPrefix(head[i], prefix, 0);
      } else if head[i][2] != prefix[2] {
        NoPrefix(head[i], prefix, 2);
      } else {
        NoPrefix(head[i], prefix, 3);
      }
    }
  }

  lemma {:induction false} SelectAppend(keep: string -> bool, a: seq<string>, b: seq<string>)
    ensures Select(keep, a + b) == Select(keep, a) + Select(keep, b)
  {
    if a == [] {
      assert a + b == b;
    } else {
      assert (a + b)[1..] == a[1..] + b;
      SelectAppend(keep, a[1..], b);
    }
  }

  lemma {:induction false} SelectNone(keep: string -> bool, lines: seq<string>)
    requires forall i :: 0 <= i < |lines| ==> !keep(lines[i])
    ensures Select(keep, lines) == []
  {
    if lines != [] {
      SelectNone(keep, lines[1..]);
    }
  }

  lemma {:induction false} FilterSelects(section: seq<string>)
    ensures Select(IsChannelLine, Filter(section)) == Select(IsChannelLine, section)
  {
    if section != [] {
      FilterSelects(section[1..]);
      if IsChannelLine(section[0]) {
        assert ([section[0]] + Filter(section[1..]))[1..] == Filter(section[1..]);
      } else {
        assert [] + Filter(section[1..]) == Filter(section[1..]);
      }
    }
  }

  lemma ChannelReads(v: Values, m: string, mid: string, section: seq<string>)
    requires m != "" && m[0] == 'm'
    ensures Select(IsChannelLine, [m] + (Common(v) + (["a=mid:" + mid] + Filter(section)))) == Select(IsChannelLine, section)
  {
    var head := [m] + (Common(v) + ["a=mid:" + mid]);
    HeadStartsOtherwise(v, m, mid, "a=sctp-port:");
    HeadStartsOtherwise(v, m, mid, "a=max-message-size:");
    SelectNone(IsChannelLine, head);
    SelectAppend(IsChannelLine, head, Filter(section));
    FilterSelects(section);
    assert [m] + (Common(v) + (["a=mid:" + mid] + Filter(section))) == head + Filter(section);
  }

  lemma {:induction false} FirstWithReads(section: seq<string>, prefix: string)
    ensures Attribute(FirstWith(section, prefix), prefix) == Attribute(section, prefix)
  {
    if section != [] && !StartsWith(section[0], prefix) {
      FirstWithReads(section[1..], prefix);
    }
  }

  lemma CodecReads(v: Values, m: string, mid: string, section: seq<string>, format: string)
    requires m != "" && m[0] == 'm'
    ensures
      var rest := ["a=recvonly", "a=rtcp-mux"] + FirstWith(section, RtpMap(format));
      var answer := [m] + (Common(v) + (["a=mid:" + mid] + rest));
      && Attribute(answer, RtpMap(format)) == Attribute(section, RtpMap(format))
      && "a=recvonly" in answer && "a=rtcp-mux" in answer
  {
    var prefix := RtpMap(format);
    var head := [m] + (Common(v) + ["a=mid:" + mid]);
    var receive := ["a=recvonly", "a=rtcp-mux"];
    var codec := FirstWith(section, prefix);
    assert prefix[0] == 'a' && prefix[2] == 'r' && prefix[3] == 't' && prefix[4] == 'p';
    HeadStartsOtherwise(v, m, mid, prefix);
    NoPrefix("a=recvonly", prefix, 3);
    NoPrefix("a=rtcp-mux", prefix, 4);
    NoneStartsOfMore(head, receive, head + receive, prefix);
    SkipLines(head + receive, codec, prefix);
    FirstWithReads(section, prefix);
    var answer := [m] + (Common(v) + (["a=mid:" + mid] + (receive + codec)));
    assert answer == head + receive + codec;
    assert answer[|head|] == "a=recvonly" && answer[|head| + 1] == "a=rtcp-mux";
  }

  lemma PortReads(v: Values, section: seq<string>, mid: string)
    ensures Words(Rest(AnswerSection(v, section, mid)))[0] == "9"
  {
    WordLengthOf(Media(section), "");
    MLineReads(Media(section), Spaced("9", Spaced(Protocol(section), AnswerFormats(section))), Common(v) + AfterCommon(section, mid));
    WordsCons("9", Spaced(Protocol(section), AnswerFormats(section)));
  }

  lemma SectionDescribes(v: Values, section: seq<string>, mid: string)
    requires WellFormed(section)
    ensures Describes(v, AnswerSection(v, section, mid), section)
  {
    var m := AnswerMLine(section);
    PortReads(v, section, mid);
    CredentialsRead(v, m, AfterCommon(section, mid));
    DtlsReads(v, m, AfterCommon(section, mid));
    if Media(section) == "application" {
      ChannelReads(v, m, mid, section);
    } else {
      CodecReads(v, m, mid, section, FirstFormat(section));
    }
  }

  /** Every section of an answer says all that the answer of a real viewer would. */
  lemma AnswerDescribes(v: Values, offer: string)
    requires v.Valid() && Answer(v, offer).Ok?
    ensures
      var answered := Sections(SplitLines(Answer(v, offer).value.0));
      var offered := Sections(SplitLines(offer));
      |answered| == |offered| && forall i :: 0 <= i < |offered| ==> Describes(v, answered[i], offered[i])
  {
    AnswerSections(v, offer);
    var offered := Sections(SplitLines(offer));
    forall i | 0 <= i < |offered| ensures Describes(v, Blocks(v, offered)[i], offered[i]) {
      SectionDescribes(v, offered[i], Mid(offered[i], i));
    }
  }

  /** Section 5 of RFC 4566: version, origin, name and time come first, in this order, and then the sections. */
  predicate Heads(lines: seq<string>, session: string) {
    && |lines| > 6 && lines[0] == "v=0" && lines[1] == "o=- " + (session + " " + "2 IN IP4 127.0.0.1")
    && lines[2] == "s=-" && lines[3] == "t=0 0" && StartsWith(lines[6], "m=")
  }

  lemma HeaderReads(v: Values, offer: string)
    requires v.Valid() && Answer(v, offer).Ok?
    ensures Heads(SplitLines(Answer(v, offer).value.0), v.session)
  {
    var sections := Sections(SplitLines(offer));
    var blocks := Blocks(v, sections);
    AnswerSectionHasOneMLine(v, sections[0], Mid(sections[0], 0));
    FirstBlock(blocks);
    AnswerLines(v, offer);
    HeaderThenBody(v, Mids(sections), Flat(blocks), Header(v, Mids(sections)) + Flat(blocks));
  }

  lemma HeaderThenBody(v: Values, mids: seq<string>, body: seq<string>, lines: seq<string>)
    requires body != [] && StartsWith(body[0], "m=") && lines == Header(v, mids) + body
    ensures Heads(lines, v.session)
  {
    Concatenated(Header(v, mids), body, 6);
    assert lines[0] == lines[..6][0] && lines[1] == lines[..6][1] && lines[2] == lines[..6][2] && lines[3] == lines[..6][3];
  }

  lemma Concatenated<T>(head: seq<T>, body: seq<T>, n: nat)
    requires |head| == n && body != []
    ensures (head + body)[..n] == head && (head + body)[n] == body[0]
  {
  }

  lemma {:induction false} FirstBlock(blocks: seq<seq<string>>)
    requires blocks != [] && blocks[0] != []
    ensures Flat(blocks) != [] && Flat(blocks)[0] == blocks[0][0]
    decreases |blocks|
  {
    var n := |blocks| - 1;
    if n == 0 {
      assert Flat(blocks[..0]) == [];
    } else {
      FirstBlock(blocks[..n]);
    }
  }
}
