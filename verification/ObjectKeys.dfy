// What the keys of raw objects name, which keys carry a container, and what the times and
// directories on a line stand for (raw_parser.go, `rawObjectIdentity`; raw_ingest.go, `containerKeys`).
module ObjectKeys {
  import opened Wrappers
  import opened Text
  import V4Ids
  import LT = TurnOrigins
  import RW = RecordWalk
  import SP = SessionParse

  // ---------- The host and the source in a key ----------

  predicate IsSource(source: string) {
    || source == "pi" || source == "codex" || source == "omp" || source == "claude"
    || source == "grok" || source == "grokbot" || source == "telegram"
  }

  // The path ends in ".jsonl", in letters of either case.
  predicate EndsInJsonl(path: string) {
    && |path| >= 6
    && var n := |path| - 6;
       && path[n] == '.' && (path[n + 1] == 'j' || path[n + 1] == 'J') && (path[n + 2] == 's' || path[n + 2] == 'S')
       && (path[n + 3] == 'o' || path[n + 3] == 'O') && (path[n + 4] == 'n' || path[n + 4] == 'N')
       && (path[n + 5] == 'l' || path[n + 5] == 'L')
  }

  // The key is host/source/path, where a leading slash makes no difference.
  ghost predicate KeyOf(key: string, host: string, source: string) {
    && host != "" && '/' !in host && IsSource(source)
    && exists path: string :: EndsInJsonl(path)
         && (key == host + "/" + source + "/" + path || key == "/" + host + "/" + source + "/" + path)
  }

  // Taking a path apart at its first slash.
  lemma {:induction false} FirstSlash(s: string) returns (rest: string)
    requires |SplitOn(s, '/')| > 1
    ensures '/' !in SplitOn(s, '/')[0]
    ensures s == SplitOn(s, '/')[0] + "/" + rest && SplitOn(rest, '/') == SplitOn(s, '/')[1..]
  {
    var pieces, tail := SplitOn(s, '/'), SplitOn(s[1..], '/');
    SplitOnStep(s, '/');
    hide SplitOn;
    if s[0] == '/' {
      rest := s[1..];
      assert s == "" + "/" + rest;
    } else {
      rest := FirstSlash(s[1..]);
      assert pieces[0] == [s[0]] + tail[0] && pieces[1..] == tail[1..];
      assert s == [s[0]] + s[1..];
    }
  }

  lemma {:induction false} SlashSplits(s: string)
    ensures if '/' in s then |SplitOn(s, '/')| > 1 else SplitOn(s, '/') == [s]
  {
    if s != "" {
      SplitOnStep(s, '/');
      SlashSplits(s[1..]);
      assert s == [s[0]] + s[1..];
      hide SplitOn;
    }
  }

  lemma JsonlIs(name: string)
    ensures SP.IsJsonl(name) <==> EndsInJsonl(name)
  {
    if |name| >= 6 {
      var n, end := |name| - 6, ".jsonl";
      if SP.IsJsonl(name) {
        assert SP.Lower(name[n + 0]) == end[0] && SP.Lower(name[n + 1]) == end[1] && SP.Lower(name[n + 2]) == end[2];
        assert SP.Lower(name[n + 3]) == end[3] && SP.Lower(name[n + 4]) == end[4] && SP.Lower(name[n + 5]) == end[5];
      }
    }
  }

  // Only the last piece of a path matters for its end.
  lemma {:induction false} LastPieceEnds(s: string)
    ensures var pieces := SplitOn(s, '/'); EndsInJsonl(pieces[|pieces| - 1]) <==> EndsInJsonl(s)
  {
    if s != "" {
      SplitOnStep(s, '/');
      SlashSplits(s[1..]);
      LastPieceEnds(s[1..]);
      var pieces, tail := SplitOn(s, '/'), SplitOn(s[1..], '/');
      if '/' in s { SlashIsNoEnd(s); }
      hide SplitOn, EndsInJsonl;
      assert s == [s[0]] + s[1..];
      if s[0] == '/' || |tail| > 1 {
        assert '/' in s && pieces[|pieces| - 1] == tail[|tail| - 1];
      } else {
        assert pieces == [s];
      }
    }
  }

  lemma SlashIsNoEnd(s: string)
    requires s != "" && '/' in s
    ensures EndsInJsonl(s) <==> EndsInJsonl(s[1..])
  {
    var i :| 0 <= i < |s| && s[i] == '/';
    if |s| == 6 { assert i == 0 || i == 1 || i == 2 || i == 3 || i == 4 || i == 5; }
  }

  ghost predicate PlainKey(key: string, host: string, source: string) {
    && host != "" && '/' !in host && IsSource(source)
    && exists path: string :: EndsInJsonl(path) && key == host + "/" + source + "/" + path
  }

  predicate NamesKey(parts: seq<string>, host: string, source: string) {
    && |parts| >= 3 && parts[0] == host != "" && parts[1] == source && IsSource(source)
    && EndsInJsonl(parts[|parts| - 1])
  }

  lemma PlainKeyNames(key: string, host: string, source: string)
    requires PlainKey(key, host, source)
    ensures NamesKey(SplitOn(key, '/'), host, source)
  {
    var path: string :| EndsInJsonl(path) && key == host + "/" + source + "/" + path;
    assert key == host + "/" + (source + "/" + path);
    SourceIsFree(source);
    V4Ids.PiecesOf(host, source + "/" + path);
    V4Ids.PiecesOf(source, path);
    LastPieceEnds(path);
    hide SplitOn, EndsInJsonl, IsSource;
    var parts := SplitOn(key, '/');
    assert parts == [host] + ([source] + SplitOn(path, '/'));
    assert parts[|parts| - 1] == SplitOn(path, '/')[|parts| - 3];
  }

  lemma NamedIsPlainKey(key: string, host: string, source: string)
    requires NamesKey(SplitOn(key, '/'), host, source)
    ensures PlainKey(key, host, source)
  {
    hide SplitOn, EndsInJsonl, IsSource, PlainKey;
    var rest := FirstSlash(key);
    var path := FirstSlash(rest);
    LastPieceEnds(path);
    EndOfTail(SplitOn(key, '/'), SplitOn(rest, '/'), SplitOn(path, '/'));
    IsPlainKey(host, source, path);
  }

  lemma EndOfTail(a: seq<string>, b: seq<string>, c: seq<string>)
    requires |a| >= 3 && b == a[1..] && c == b[1..]
    ensures c[|c| - 1] == a[|a| - 1] && b[0] == a[1]
  {
  }

  lemma IsPlainKey(host: string, source: string, path: string)
    requires host != "" && '/' !in host && IsSource(source) && EndsInJsonl(path)
    ensures PlainKey(host + "/" + (source + "/" + path), host, source)
  {
    hide IsSource, EndsInJsonl;
    assert host + "/" + (source + "/" + path) == host + "/" + source + "/" + path;
  }

  lemma SourceIsFree(source: string)
    requires IsSource(source)
    ensures V4Ids.Free(source)
  {
    assert forall i | 0 <= i < |source| :: source[i] != '/';
  }

  function Plain(key: string): string { if HasPrefix(key, "/") then key[1..] else key }

  lemma PiecesName(key: string, host: string, source: string)
    ensures SP.RawObjectIdentity(key) == Some(SP.Origin(host, source)) <==>
      NamesKey(SplitOn(Plain(key), '/'), host, source)
  {
    var parts := SplitOn(Plain(key), '/');
    JsonlIs(parts[|parts| - 1]);
    if |parts| >= 2 { SourceSet(parts[1]); }
    hide SplitOn, IsSource, SP.IsJsonl, EndsInJsonl;
  }

  lemma PlainKeyIs(key: string, host: string, source: string)
    ensures PlainKey(key, host, source) <==> NamesKey(SplitOn(key, '/'), host, source)
  {
    var parts := SplitOn(key, '/');
    if PlainKey(key, host, source) { PlainKeyNames(key, host, source); }
    hide PlainKey, SplitOn, IsSource, EndsInJsonl;
    if NamesKey(parts, host, source) { NamedIsPlainKey(key, host, source); }
  }

  // Exactly the keys of the form host/source/path name a host and a source.
  lemma IdentityIs(key: string, host: string, source: string)
    ensures SP.RawObjectIdentity(key) == Some(SP.Origin(host, source)) <==> KeyOf(key, host, source)
  {
    PiecesName(key, host, source);
    PlainKeyIs(Plain(key), host, source);
    SlashDropped(key, host, source);
    hide PlainKey, KeyOf, NamesKey, SP.RawObjectIdentity, SplitOn;
  }

  lemma SourceSet(source: string)
    ensures source in SP.RAW_SOURCES <==> IsSource(source)
  {
  }

  lemma SlashDropped(key: string, host: string, source: string)
    ensures KeyOf(key, host, source) <==> PlainKey(Plain(key), host, source)
  {
    var plain := Plain(key);
    hide IsSource, EndsInJsonl;
    forall path: string | host != "" && '/' !in host
      ensures (key == host + "/" + source + "/" + path || key == "/" + host + "/" + source + "/" + path) <==>
              plain == host + "/" + source + "/" + path
    {
      var k := host + "/" + source + "/" + path;
      assert k[0] == host[0] && host[0] in host;
      assert "/" + host + "/" + source + "/" + path == "/" + k && ("/" + k)[1..] == k;
      if HasPrefix(key, "/") { assert key == "/" + key[1..]; }
    }
  }

  // ---------- The keys of a container ----------

  // The part of a container's id before its first colon; a chat's topics share one.
  ghost predicate ChatPart(containerId: string, chat: string) {
    && ':' !in chat
    && (containerId == chat || exists topic: string :: containerId == chat + ":" + topic)
  }

  lemma FirstColon(containerId: string)
    ensures var cut := IndexOf(containerId, ":");
      if cut.Some? then ':' !in containerId[..cut.value] && containerId[cut.value] == ':' else ':' !in containerId
  {
    IndexOfIs(containerId, ":");
    hide IndexOf;
    forall j: nat
      ensures At(":", containerId, j) <==> j < |containerId| && containerId[j] == ':'
    {
      if j < |containerId| { assert containerId[j..j + 1] == [containerId[j]]; }
    }
  }

  lemma NeedleIs(containerId: string, chat: string)
    ensures RW.Needle(containerId) == chat <==> ChatPart(containerId, chat)
  {
    FirstColon(containerId);
    var cut := IndexOf(containerId, ":");
    hide IndexOf;
    if cut.Some? {
      var n := cut.value;
      assert containerId == containerId[..n] + ":" + containerId[n + 1..];
      if topic: string :| ':' !in chat && containerId == chat + ":" + topic {
        assert containerId[|chat|] == ':' && containerId[..|chat|] == chat;
      }
    }
  }

  // A listed key is walked exactly when it names the host and the source that are asked for
  // and has the container's chat, or session, in it.
  lemma CarriesIs(key: string, containerId: string, host: string, source: string)
    ensures RW.Carries(key, containerId, host, source) <==>
      exists h: string, s: string, chat: string ::
        && KeyOf(key, h, s) && (host == "" || h == host) && (source == "" || s == source)
        && ChatPart(containerId, chat) && Occurs(chat, key)
  {
    var o := SP.RawObjectIdentity(key);
    var chat := RW.Needle(containerId);
    NeedleIs(containerId, chat);
    IndexOfIs(key, chat);
    hide RW.Needle, IndexOf, SP.RawObjectIdentity, KeyOf, ChatPart, Occurs;
    if o.Some? { IdentityIs(key, o.value.host, o.value.harness); }
    forall h: string, s: string, c: string | KeyOf(key, h, s) && ChatPart(containerId, c)
      ensures o == Some(SP.Origin(h, s)) && c == chat
    {
      IdentityIs(key, h, s);
      NeedleIs(containerId, c);
    }
  }

  // ---------- Times and directories ----------

  // A number above ten thousand million is in milliseconds, any other in seconds; fractions are
  // cut off. A text is a time as the library reads it. Nothing else is a time.
  ghost predicate StampSays(codec: SP.Codec, v: SP.Json, t: int) {
    match v
    case Num(n) =>
      if n > 10_000_000_000.0 then 1000.0 * t as real <= n < 1000.0 * t as real + 1000.0
      else if n >= 0.0 then t as real <= n < t as real + 1.0
      else t as real - 1.0 < n <= t as real
    case Str(s) => t == if forall i | 0 <= i < |s| :: IsSpace(s[i]) then 0 else codec.time(TrimSpace(s))
    case _ => t == 0
  }

  lemma TimestampIs(codec: SP.Codec, v: SP.Json, t: int)
    ensures StampSays(codec, v, t) <==> SP.Timestamp(codec, v) == t
  {
    match v
    case Num(n) =>
      if n > 10_000_000_000.0 {
        var f := n.Floor;
        assert f as real <= n < f as real + 1.0;
        assert 1000.0 * t as real == (1000 * t) as real;
        assert 1000 * t <= f < 1000 * t + 1000 <==> f / 1000 == t;
      } else {
        var f := if n >= 0.0 then n.Floor else (-n).Floor;
      }
    case Str(s) =>
      BlankIs(s);
    case _ =>
  }

  lemma BlankIs(s: string)
    ensures TrimSpace(s) == "" <==> forall i | 0 <= i < |s| :: IsSpace(s[i])
  {
    TrimSpaceIs(s);
    hide IsSpace, TrimSpace;
  }

  // A session's project is the last part of its directory's path.
  lemma ProjectIs(cwd: string)
    ensures if forall i | 0 <= i < |cwd| :: IsSpace(cwd[i]) then SP.ProjectFromCwd(cwd) == "unknown"
            else LT.ProjectOf(cwd, SP.ProjectFromCwd(cwd))
  {
    BlankIs(cwd);
    LT.CwdNamesProject(cwd);
    hide TrimSpace, TrimRightOf, AfterLastSlash;
  }
}
