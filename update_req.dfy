/**
 * The requirements upgrader (remote_agent_ap/update_req.py): every line of a
 * requirements file is kept or rewritten to pin the version installed after
 * an upgrade, and the lines are written back joined by newlines.
 */
module UpdateRequirements {
  import opened Wrappers
  import opened Strings

  /**
   * What the requirement parser reports about a line. Extras are in the
   * order the parser's set yields them; an empty marker or url means none.
   */
  datatype Requirement = Requirement(name: string, extras: seq<string>, marker: string, url: string)

  /** `line.rstrip("\n")`: the line without its trailing newlines. */
  function RStripNewlines(line: string): (r: string)
    ensures |r| <= |line| && r == line[..|r|]
    ensures r == [] || r[|r| - 1] != '\n'
    ensures forall i :: |r| <= i < |line| ==> line[i] == '\n'
  {
    if line != [] && line[|line| - 1] == '\n' then RStripNewlines(line[..|line| - 1]) else line
  }

  /** The name pip is asked to upgrade: the package with its extras in brackets, if it has any. */
  function WithExtras(name: string, extras: seq<string>): string
  {
    if extras == [] then name else name + "[" + Join(extras, ",") + "]"
  }

  /** The rewritten line pinning `version`, with the environment marker after "; " when there is one. */
  function Pinned(req: Requirement, version: string): string
  {
    WithExtras(req.name, req.extras) + "==" + version + (if req.marker != "" then "; " + req.marker else "")
  }

  /** Blank and comment lines are not requirements. */
  predicate Ignored(line: string)
  {
    var p := Strip(line);
    p == [] || StartsWith(p, "#")
  }

  /**
   * The output line for one input line: the original line (without its
   * newline) unless it parses as a non-URL requirement whose upgrade
   * succeeds and whose installed version is known.
   */
  function RewriteLine(line: string, parse: string -> Option<Requirement>, upgrade: string -> bool,
                       installedVersion: string -> Option<string>): string
  {
    if Ignored(line) then RStripNewlines(line)
    else
      match parse(Strip(line))
      case None => RStripNewlines(line)
      case Some(req) =>
        if req.url != "" || !upgrade(WithExtras(req.name, req.extras)) then RStripNewlines(line)
        else
          match installedVersion(req.name)
          case Some(v) => if v != "" then Pinned(req, v) else RStripNewlines(line)
          case None => RStripNewlines(line)
  }

  /** The output lines, one per input line, in input order. */
  function Rewritten(lines: seq<string>, parse: string -> Option<Requirement>, upgrade: string -> bool,
                     installedVersion: string -> Option<string>): (out: seq<string>)
    ensures |out| == |lines|
    ensures forall i :: 0 <= i < |lines| ==> out[i] == RewriteLine(lines[i], parse, upgrade, installedVersion)
  {
    seq(|lines|, i requires 0 <= i < |lines| => RewriteLine(lines[i], parse, upgrade, installedVersion))
  }

  /** The text written back: the lines joined by newlines, with one final newline. */
  function WrittenText(out: seq<string>): string
  {
    Join(out, "\n") + "\n"
  }

  /**
   * Starting pip for this line raises an OSError (pip missing from PATH, say):
   * a non-ignored line that parses as a non-URL requirement whose install
   * command cannot be launched. Only a CalledProcessError is caught, so this
   * aborts the whole run.
   */
  predicate LaunchFails(line: string, parse: string -> Option<Requirement>, launches: string -> bool)
  {
    && !Ignored(line)
    && parse(Strip(line)).Some?
    && parse(Strip(line)).value.url == ""
    && !launches(WithExtras(parse(Strip(line)).value.name, parse(Strip(line)).value.extras))
  }

  /** The body of the loop over the lines: the output line for one input line, or the uncaught OSError. */
  method RewriteOne(line: string, parse: string -> Option<Requirement>, launches: string -> bool, upgrade: string -> bool,
                    installedVersion: string -> Option<string>) returns (next: string, raised: bool)
    ensures raised <==> LaunchFails(line, parse, launches)
    ensures !raised ==> next == RewriteLine(line, parse, upgrade, installedVersion)
  {
    next, raised := RStripNewlines(line), false;
    if Ignored(line) {
      return;
    }
    var req := parse(Strip(line));
    if req.None? || req.value.url != "" {
      return;
    }
    if !launches(WithExtras(req.value.name, req.value.extras)) {
      raised := true;
      return;
    }
    if !upgrade(WithExtras(req.value.name, req.value.extras)) {
      return;
    }
    var newVersion := installedVersion(req.value.name);
    if newVersion.Some? && newVersion.value != "" {
      next := Pinned(req.value, newVersion.value);
    }
  }

  /**
   * upgrade_packages: nothing is written when the file cannot be read or when
   * launching pip raises for some line; otherwise each line is rewritten in
   * turn and the result is written back.
   */
  method UpgradePackages(file: Option<seq<string>>, parse: string -> Option<Requirement>, launches: string -> bool,
                         upgrade: string -> bool, installedVersion: string -> Option<string>) returns (written: Option<string>)
    ensures file.None? ==> written.None?
    ensures file.Some? && (exists i :: 0 <= i < |file.value| && LaunchFails(file.value[i], parse, launches)) ==> written.None?
    ensures file.Some? && (forall i :: 0 <= i < |file.value| ==> !LaunchFails(file.value[i], parse, launches)) ==>
      written == Some(WrittenText(Rewritten(file.value, parse, upgrade, installedVersion)))
  {
    if file.None? {
      return None;
    }
    var updated, raised := RewriteAll(file.value, parse, launches, upgrade, installedVersion);
    if raised {
      return None;
    }
    written := Some(WrittenText(updated));
  }

  /** The loop of upgrade_packages: one output line appended per input line, until launching pip raises. */
  method RewriteAll(lines: seq<string>, parse: string -> Option<Requirement>, launches: string -> bool, upgrade: string -> bool,
                    installedVersion: string -> Option<string>) returns (updated: seq<string>, raised: bool)
    ensures raised <==> exists i :: 0 <= i < |lines| && LaunchFails(lines[i], parse, launches)
    ensures !raised ==> updated == Rewritten(lines, parse, upgrade, installedVersion)
  {
    updated, raised := [], false;
    var i := 0;
    while i < |lines| && !raised
      invariant 0 <= i <= |lines|
      invariant !raised ==> forall k :: 0 <= k < i ==> !LaunchFails(lines[k], parse, launches)
      invariant !raised ==> updated == Rewritten(lines[..i], parse, upgrade, installedVersion)
      invariant raised ==> i < |lines| && LaunchFails(lines[i], parse, launches)
      decreases |lines| - i, !raised
    {
      var next, failed := RewriteOne(lines[i], parse, launches, upgrade, installedVersion);
      if failed {
        raised := true;
      } else {
        RewrittenSnoc(lines, i, parse, upgrade, installedVersion);
        updated := updated + [next];
        i := i + 1;
      }
    }
    if !raised {
      assert lines[..i] == lines;
    }
  }

  /** Rewriting one more line appends that line's rewrite. */
  lemma RewrittenSnoc(lines: seq<string>, i: nat, parse: string -> Option<Requirement>, upgrade: string -> bool,
                      installedVersion: string -> Option<string>)
    requires i < |lines|
    ensures Rewritten(lines[..i + 1], parse, upgrade, installedVersion)
      == Rewritten(lines[..i], parse, upgrade, installedVersion) + [RewriteLine(lines[i], parse, upgrade, installedVersion)]
  {
    assert lines[..i + 1] == lines[..i] + [lines[i]];
  }

  /** A line is changed only when it is a parsed, non-URL requirement that was upgraded to a known version. */
  lemma ChangedOnlyWhenPinned(line: string, parse: string -> Option<Requirement>, upgrade: string -> bool,
                              installedVersion: string -> Option<string>)
    requires RewriteLine(line, parse, upgrade, installedVersion) != RStripNewlines(line)
    ensures !Ignored(line)
    ensures parse(Strip(line)).Some? && parse(Strip(line)).value.url == ""
    ensures upgrade(WithExtras(parse(Strip(line)).value.name, parse(Strip(line)).value.extras))
    ensures installedVersion(parse(Strip(line)).value.name).Some?
    ensures RewriteLine(line, parse, upgrade, installedVersion)
         == Pinned(parse(Strip(line)).value, installedVersion(parse(Strip(line)).value.name).value)
  {
  }

  predicate OneLine(s: string)
  {
    '\n' !in s
  }

  /** A line as a line reader yields it: a newline can only be its last character. */
  predicate ReadLine(line: string)
  {
    forall i :: 0 <= i < |line| - 1 ==> line[i] != '\n'
  }

  /** Names, extras, markers and versions that hold no newline. */
  predicate NoNewlines(req: Requirement, version: string)
  {
    && OneLine(req.name) && OneLine(req.marker) && OneLine(version)
    && forall k :: 0 <= k < |req.extras| ==> OneLine(req.extras[k])
  }

  lemma {:induction false} JoinNoChar(xs: seq<string>, sep: string, c: char)
    requires c !in sep
    requires forall k :: 0 <= k < |xs| ==> c !in xs[k]
    ensures c !in Join(xs, sep)
  {
    if |xs| > 1 {
      JoinNoChar(xs[1..], sep, c);
    }
  }

  lemma KeptIsOneLine(line: string)
    requires ReadLine(line)
    ensures OneLine(RStripNewlines(line))
  {
    var kept := RStripNewlines(line);
    forall i | 0 <= i < |kept| ensures kept[i] != '\n' {
      assert kept[i] == line[i];
    }
  }

  lemma PinnedIsOneLine(req: Requirement, version: string)
    requires NoNewlines(req, version)
    ensures OneLine(Pinned(req, version))
  {
    JoinNoChar(req.extras, ",", '\n');
  }

  /** Every output line is a single line, as long as what the parser and the version lookup report is. */
  lemma RewriteLineIsOneLine(line: string, parse: string -> Option<Requirement>, upgrade: string -> bool,
                             installedVersion: string -> Option<string>)
    requires ReadLine(line)
    requires parse(Strip(line)).Some? && installedVersion(parse(Strip(line)).value.name).Some? ==>
      NoNewlines(parse(Strip(line)).value, installedVersion(parse(Strip(line)).value.name).value)
    ensures OneLine(RewriteLine(line, parse, upgrade, installedVersion))
  {
    if RewriteLine(line, parse, upgrade, installedVersion) == RStripNewlines(line) {
      KeptIsOneLine(line);
    } else {
      ChangedOnlyWhenPinned(line, parse, upgrade, installedVersion);
      var req := parse(Strip(line)).value;
      PinnedIsOneLine(req, installedVersion(req.name).value);
    }
  }

  /**
   * Splitting the written text (without its final newline) on newlines gives
   * back exactly the output lines: one line per input line, in order.
   */
  lemma WrittenLines(out: seq<string>)
    requires |out| >= 1
    requires forall k :: 0 <= k < |out| ==> OneLine(out[k])
    ensures var text := WrittenText(out); text[|text| - 1] == '\n' && Split(text[..|text| - 1], '\n') == out
  {
    var text := WrittenText(out);
    assert text[..|text| - 1] == Join(out, "\n");
    SplitJoin(out, '\n');
  }

  /** An empty requirements file is written back as a single newline. */
  lemma EmptyFileWritesNewline(parse: string -> Option<Requirement>, upgrade: string -> bool,
                               installedVersion: string -> Option<string>)
    ensures WrittenText(Rewritten([], parse, upgrade, installedVersion)) == "\n"
  {
  }

  /** The parts a reader recovers from a pinned line. */
  datatype Pin = Pin(name: string, extras: seq<string>, version: string, marker: string)

  /** Reads a pinned requirement line back into its name, extras, version and marker. */
  function DecodePinned(s: string): Option<Pin>
  {
    var semi := Split(s, ';');
    if |semi| > 2 then None
    else if |semi| == 2 && !(StartsWith(semi[1], " ") && |semi[1]| > 1) then None
    else
      var marker := if |semi| == 2 then semi[1][1..] else "";
      match DecodeHead(semi[0])
      case None => None
      case Some(p) => Some(Pin(p.name, p.extras, p.version, marker))
  }

  /** Reads the part before the marker: the name, the bracketed extras and the version after "==". */
  function DecodeHead(head: string): Option<Pin>
  {
    var eq := Split(head, '=');
    if |eq| != 3 || eq[1] != "" then None
    else
      var brackets := Split(eq[0], '[');
      if |brackets| == 1 then Some(Pin(eq[0], [], eq[2], ""))
      else if |brackets| == 2 && EndsWith(brackets[1], "]") then
        var inner := brackets[1][..|brackets[1]| - 1];
        Some(Pin(brackets[0], Split(inner, ','), eq[2], ""))
      else None
  }

  /** The characters that separate the parts of a pinned line. */
  predicate Plain(s: string)
  {
    ';' !in s && '=' !in s && '[' !in s && ',' !in s
  }

  /** The head of a pinned line splits at "==" into the name with its extras and the version. */
  lemma SplitHead(req: Requirement, version: string)
    requires Plain(req.name) && Plain(version)
    requires forall k :: 0 <= k < |req.extras| ==> Plain(req.extras[k])
    ensures var head := WithExtras(req.name, req.extras) + "==" + version;
      && ';' !in head
      && Split(head, '=') == [WithExtras(req.name, req.extras), "", version]
  {
    var ne := WithExtras(req.name, req.extras);
    if req.extras != [] {
      JoinNoChar(req.extras, ",", ';');
      JoinNoChar(req.extras, ",", '=');
    }
    assert '=' !in ne && ';' !in ne;
    SplitTwo("", version, '=');
    SplitAtSeparator(ne, '=', "" + ['='] + version);
    assert ne + "==" + version == ne + ['='] + ("" + ['='] + version);
  }

  lemma NoCharAfter(inner: string, c: char, d: char)
    requires c !in inner && c != d
    ensures c !in inner + [d]
  {
    assert forall k :: 0 <= k < |inner| + 1 ==> (inner + [d])[k] == (if k < |inner| then inner[k] else d);
  }

  /** Two pieces joined by a separator that neither holds split back apart. */
  lemma SplitTwo(a: string, b: string, c: char)
    requires c !in a && c !in b
    ensures Split(a + [c] + b, c) == [a, b]
  {
    SplitAtSeparator(a, c, b);
    SplitNoSeparator(b, c);
  }

  lemma ExtrasTailPlain(extras: seq<string>)
    requires forall k :: 0 <= k < |extras| ==> Plain(extras[k])
    ensures '[' !in Join(extras, ",") + "]"
  {
    JoinNoChar(extras, ",", '[');
    NoCharAfter(Join(extras, ","), '[', ']');
  }

  lemma WithExtrasParts(name: string, extras: seq<string>)
    requires extras != []
    ensures WithExtras(name, extras) == name + ['['] + (Join(extras, ",") + "]")
  {
  }

  lemma DecodeExtras(name: string, extras: seq<string>)
    requires extras != []
    requires Plain(name)
    requires forall k :: 0 <= k < |extras| ==> Plain(extras[k])
    ensures Split(WithExtras(name, extras), '[') == [name, Join(extras, ",") + "]"]
  {
    var tail := Join(extras, ",") + "]";
    ExtrasTailPlain(extras);
    WithExtrasParts(name, extras);
    SplitTwo(name, tail, '[');
  }

  /** The head of a pinned line reads back as the name, extras and version. */
  lemma HeadRoundTrip(req: Requirement, version: string)
    requires Plain(req.name) && Plain(version)
    requires forall k :: 0 <= k < |req.extras| ==> Plain(req.extras[k])
    ensures DecodeHead(WithExtras(req.name, req.extras) + "==" + version) == Some(Pin(req.name, req.extras, version, ""))
  {
    SplitHead(req, version);
    if req.extras != [] {
      DecodeExtras(req.name, req.extras);
      SplitJoin(req.extras, ',');
      var b := Join(req.extras, ",") + "]";
      assert b[..|b| - 1] == Join(req.extras, ",");
    } else {
      SplitNoSeparator(req.name, '[');
    }
  }

  lemma NoCharBefore(d: char, tail: string, c: char)
    requires c !in tail && c != d
    ensures c !in [d] + tail
  {
    assert forall k :: 0 <= k < |tail| + 1 ==> ([d] + tail)[k] == (if k == 0 then d else tail[k - 1]);
  }

  /** A marker is the only piece after the ';'. */
  lemma SplitMarker(head: string, marker: string)
    requires ';' !in head && ';' !in marker
    ensures Split(head + "; " + marker, ';') == [head, " " + marker]
  {
    NoCharBefore(' ', marker, ';');
    assert head + "; " + marker == head + [';'] + (" " + marker);
    SplitTwo(head, " " + marker, ';');
  }

  /**
   * A pinned line reads back as the requirement's name, extras, version and
   * marker, when none of them holds a separator character.
   */
  lemma PinnedRoundTrip(req: Requirement, version: string)
    requires Plain(req.name) && Plain(version) && ';' !in req.marker
    requires forall k :: 0 <= k < |req.extras| ==> Plain(req.extras[k])
    ensures DecodePinned(Pinned(req, version)) == Some(Pin(req.name, req.extras, version, req.marker))
  {
    var head := WithExtras(req.name, req.extras) + "==" + version;
    SplitHead(req, version);
    HeadRoundTrip(req, version);
    if req.marker != "" {
      assert Pinned(req, version) == head + "; " + req.marker;
      SplitMarker(head, req.marker);
      assert (" " + req.marker)[1..] == req.marker;
    } else {
      assert Pinned(req, version) == head;
      SplitNoSeparator(head, ';');
    }
  }
}
