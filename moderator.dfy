/**
 * The moderator of the network of assistants (network_of_assistants/moderator/main.py):
 * the agent catalog read from a directory of agent specs, its rendering for
 * the prompt, the roster view, the evaluator's verdict, and the decision
 * cycle run on every message received from the shared channel.
 *
 * The language-model decision and the evaluator are parameters; publishing
 * appends to `outbox`. The code keeps no "who may speak" state; `grant` is a
 * ghost record of the last RequestToSpeak published, so that the turn-taking
 * convention stated in the moderator's prompt can be checked against it.
 */
module Moderator {
  import opened Json
  import opened Wrappers
  import opened Strings
  import opened Envelope

  /** The reserved participant that hands control back to the user. */
  const UserProxy: string := "user-proxy"
  /** The author of every envelope the moderator writes itself. */
  const ModeratorId: string := "moderator"

  // ---------------------------------------------------------------------------
  // Agent catalog: list_available_agents and agents_to_string

  /** Catalog key of an agent: `name.lower().strip().replace(" ", "-")`. */
  function NormaliseName(name: string): (key: string)
    ensures ' ' !in key
    ensures NoUpper(key)
    ensures Trimmed(key)
  {
    var key := ReplaceChar(Strip(Lower(name)), ' ', '-');
    NormaliseFacts(name, Strip(Lower(name)), key);
    key
  }

  lemma NormaliseFacts(name: string, stripped: string, key: string)
    requires stripped == Strip(Lower(name)) && key == ReplaceChar(stripped, ' ', '-')
    ensures ' ' !in key && NoUpper(key)
    ensures Trimmed(key)
  {
    LowerHasNoUpper(name);
    StripKeepsNoUpper(Lower(name));
    forall i | 0 <= i < |key| ensures key[i] != ' ' && !('A' <= key[i] <= 'Z') {
      assert key[i] == (if stripped[i] == ' ' then '-' else stripped[i]);
    }
  }

  predicate NoUpper(s: string)
  {
    forall i :: 0 <= i < |s| ==> !('A' <= s[i] <= 'Z')
  }

  lemma LowerHasNoUpper(s: string)
    ensures NoUpper(Lower(s))
  {
    var r := Lower(s);
    forall i | 0 <= i < |r| ensures !('A' <= r[i] <= 'Z') {
      assert r[i] == LowerChar(s[i]);
    }
  }

  lemma SliceHasNoUpper(s: string, start: nat, r: string)
    requires NoUpper(s) && start + |r| <= |s| && r == s[start..start + |r|]
    ensures NoUpper(r)
  {
    forall i | 0 <= i < |r| ensures !('A' <= r[i] <= 'Z') {
      assert r[i] == s[start + i];
    }
  }

  lemma StripKeepsNoUpper(s: string)
    requires NoUpper(s)
    ensures NoUpper(Strip(s))
  {
    SliceHasNoUpper(s, LeadingSpaces(s), Strip(s));
  }

  /** Normalising a catalog key again leaves it as it is. */
  lemma NormaliseIdempotent(name: string)
    ensures NormaliseName(NormaliseName(name)) == NormaliseName(name)
  {
    var key := NormaliseName(name);
    LowerOfNoUpper(key);
    StripNoEdgeSpace(key);
    ReplaceAbsent(key, ' ', '-');
  }

  lemma LowerOfNoUpper(s: string)
    requires NoUpper(s)
    ensures Lower(s) == s
  {
    assert forall i :: 0 <= i < |s| ==> Lower(s)[i] == s[i];
  }

  lemma ReplaceAbsent(s: string, a: char, b: char)
    requires a !in s
    ensures ReplaceChar(s, a, b) == s
  {
    assert forall i :: 0 <= i < |s| ==> ReplaceChar(s, a, b)[i] == s[i];
  }

  /** The catalog: agent key to description, in the insertion order of a Python dict. */
  type Catalog = seq<(string, Json)>

  function Lookup(c: Catalog, key: string): Option<Json>
  {
    if c == [] then None
    else if c[0].0 == key then Some(c[0].1)
    else Lookup(c[1..], key)
  }

  function KeySet(c: Catalog): set<string>
  {
    set i | 0 <= i < |c| :: c[i].0
  }

  predicate DistinctKeys(c: Catalog)
  {
    forall i, j :: 0 <= i < j < |c| ==> c[i].0 != c[j].0
  }

  /** `d[key] = value`: a new key goes last, an existing key keeps its place and takes the new value. */
  function Put(c: Catalog, key: string, value: Json): (r: Catalog)
    ensures forall k :: Lookup(r, k) == if k == key then Some(value) else Lookup(c, k)
    ensures KeySet(r) == KeySet(c) + {key}
    ensures DistinctKeys(c) ==> DistinctKeys(r)
  {
    if c == [] then
      PutFirstKeys(key, value);
      [(key, value)]
    else if c[0].0 == key then
      PutHeadKeys(c, value);
      [(key, value)] + c[1..]
    else
      var tail := Put(c[1..], key, value);
      PutConsKeys(c, key, tail);
      [c[0]] + tail
  }

  lemma PutFirstKeys(key: string, value: Json)
    ensures KeySet([(key, value)]) == {key}
  {
    assert [(key, value)][0].0 in KeySet([(key, value)]);
  }

  lemma PutHeadKeys(c: Catalog, value: Json)
    requires c != []
    ensures KeySet([(c[0].0, value)] + c[1..]) == KeySet(c)
  {
    var r := [(c[0].0, value)] + c[1..];
    assert forall i :: 0 <= i < |r| ==> r[i].0 == c[i].0;
    forall k | k in KeySet(c) ensures k in KeySet(r) {
      var i :| 0 <= i < |c| && c[i].0 == k;
      assert r[i].0 == k;
    }
  }

  lemma PutConsKeys(c: Catalog, key: string, tail: Catalog)
    requires c != [] && c[0].0 != key
    requires KeySet(tail) == KeySet(c[1..]) + {key}
    requires DistinctKeys(c[1..]) ==> DistinctKeys(tail)
    ensures KeySet([c[0]] + tail) == KeySet(c) + {key}
    ensures DistinctKeys(c) ==> DistinctKeys([c[0]] + tail)
  {
    var r := [c[0]] + tail;
    assert KeySet(r) == {c[0].0} + KeySet(tail) by {
      assert r[0].0 in KeySet(r);
      forall k | k in KeySet(r) ensures k in {c[0].0} + KeySet(tail) {
        var i :| 0 <= i < |r| && r[i].0 == k;
        if i > 0 { assert r[i] == tail[i - 1]; assert tail[i - 1].0 in KeySet(tail); }
      }
      forall k | k in KeySet(tail) ensures k in KeySet(r) {
        var i :| 0 <= i < |tail| && tail[i].0 == k;
        assert r[i + 1] == tail[i];
        assert r[i + 1].0 in KeySet(r);
      }
    }
    assert KeySet(c) == {c[0].0} + KeySet(c[1..]) by {
      assert c[0].0 in KeySet(c);
      forall k | k in KeySet(c) ensures k in {c[0].0} + KeySet(c[1..]) {
        var i :| 0 <= i < |c| && c[i].0 == k;
        if i > 0 { assert c[1..][i - 1] == c[i]; assert c[1..][i - 1].0 in KeySet(c[1..]); }
      }
      forall k | k in KeySet(c[1..]) ensures k in KeySet(c) {
        var i :| 0 <= i < |c[1..]| && c[1..][i].0 == k;
        assert c[i + 1] == c[1..][i];
        assert c[i + 1].0 in KeySet(c);
      }
    }
    if DistinctKeys(c) {
      assert c[0].0 !in KeySet(c[1..]);
      forall i, j | 0 <= i < j < |r| ensures r[i].0 != r[j].0 {
        if i == 0 { assert r[j].0 in KeySet(tail); }
      }
    }
  }

  /**
   * What opening and parsing a file gave: its JSON content; a failure the
   * reader catches (invalid JSON, a missing file, any other OSError); or text
   * that is not valid in the reading encoding, whose UnicodeDecodeError the
   * reader does not catch.
   */
  datatype FileRead = Parsed(content: Json) | CaughtFailure | UndecodableText

  /** A file of the agents directory: its name and what reading it gave. */
  datatype SpecFile = SpecFile(filename: string, data: FileRead)

  /** A spec file the reader cannot use and whose error it does not catch. */
  datatype CatalogError =
    | MalformedSpec(filename: string)     // a KeyError, TypeError or AttributeError on the parsed content
    | UndecodableSpec(filename: string)   // a UnicodeDecodeError while reading

  /**
   * What one file contributes: nothing when it is not a `.json` file or its
   * reading failed with a caught error; an uncaught error when its text cannot
   * be decoded, or when the name or description is missing or the name is not
   * a string; otherwise its normalised name and its description.
   */
  function Entry(f: SpecFile): (e: Result<Option<(string, Json)>, CatalogError>)
    ensures e.Err? <==> EndsWith(f.filename, ".json") && !f.data.CaughtFailure? && !WellFormedSpec(f.data)
    ensures e.Err? && f.data.UndecodableText? ==> e.error == UndecodableSpec(f.filename)
    ensures e.Ok? && e.value.Some? ==>
      && WellFormedSpec(f.data)
      && e.value.value == (NormaliseName(f.data.content.fields["name"].s), f.data.content.fields["description"])
  {
    if !EndsWith(f.filename, ".json") then Ok(None)
    else
      match f.data
      case CaughtFailure => Ok(None)
      case UndecodableText => Err(UndecodableSpec(f.filename))
      case Parsed(j) =>
        if WellFormedSpec(f.data) then Ok(Some((NormaliseName(j.fields["name"].s), j.fields["description"])))
        else Err(MalformedSpec(f.filename))
  }

  /** Parsed content with a string `name` and a `description`. */
  predicate WellFormedSpec(r: FileRead)
  {
    && r.Parsed? && r.content.JObj?
    && "description" in r.content.fields && "name" in r.content.fields && r.content.fields["name"].JStr?
  }

  /** What a file contributes: an uncaught error, nothing, or a key and its description. */
  type Contribution = Result<Option<(string, Json)>, CatalogError>

  /** Fold of the contributions in listing order into the dict; the first error propagates. */
  function Collect(es: seq<Contribution>): Result<Catalog, CatalogError>
  {
    if es == [] then Ok([])
    else
      match Collect(es[..|es| - 1])
      case Err(e) => Err(e)
      case Ok(c) =>
        match es[|es| - 1]
        case Err(e) => Err(e)
        case Ok(None) => Ok(c)
        case Ok(Some(p)) => Ok(Put(c, p.0, p.1))
  }

  function Contributions(files: seq<SpecFile>): (es: seq<Contribution>)
    ensures |es| == |files| && forall i :: 0 <= i < |files| ==> es[i] == Entry(files[i])
  {
    seq(|files|, i requires 0 <= i < |files| => Entry(files[i]))
  }

  /** The catalog built from the files in listing order, or the first uncaught error. */
  function CatalogOf(files: seq<SpecFile>): Result<Catalog, CatalogError>
  {
    Collect(Contributions(files))
  }

  /**
   * Reading the catalog fails exactly when some `.json` file could not be
   * decoded or lacks a string name or a description, and then with the error
   * of the first such file in listing order.
   */
  lemma CatalogFailure(files: seq<SpecFile>)
    ensures CatalogOf(files).Err? <==>
      exists i :: 0 <= i < |files| && Entry(files[i]).Err?
    ensures CatalogOf(files).Err? <==>
      exists i :: 0 <= i < |files| && EndsWith(files[i].filename, ".json")
        && !files[i].data.CaughtFailure? && !WellFormedSpec(files[i].data)
    ensures CatalogOf(files).Err? ==>
      exists i :: 0 <= i < |files| && Entry(files[i]) == Err(CatalogOf(files).error)
        && forall j :: 0 <= j < i ==> Entry(files[j]).Ok?
  {
    var es := Contributions(files);
    CollectFailure(es);
    if CatalogOf(files).Err? {
      var i :| 0 <= i < |es| && es[i] == Err(Collect(es).error) && forall j :: 0 <= j < i ==> es[j].Ok?;
      assert Entry(files[i]) == es[i];
    }
  }

  predicate Provides(e: Contribution, key: string)
  {
    e.Ok? && e.value.Some? && e.value.value.0 == key
  }

  /** Contribution `i` is the last one that provides `key`. */
  predicate LastProvider(es: seq<Contribution>, i: int, key: string)
  {
    0 <= i < |es| && Provides(es[i], key)
    && forall j :: i < j < |es| ==> !Provides(es[j], key)
  }

  /** A successful listing holds each key once. */
  lemma {:induction false} CollectDistinct(es: seq<Contribution>, c: Catalog)
    requires Collect(es) == Ok(c)
    ensures DistinctKeys(c)
  {
    if es != [] {
      CollectDistinct(es[..|es| - 1], Collect(es[..|es| - 1]).value);
    }
  }

  /** A key is in a successful listing exactly when some file provides it. */
  lemma {:induction false} CollectKeys(es: seq<Contribution>, c: Catalog, key: string)
    requires Collect(es) == Ok(c)
    ensures Lookup(c, key).Some? <==> exists i :: 0 <= i < |es| && Provides(es[i], key)
  {
    if es != [] {
      var n := |es| - 1;
      var init := es[..n];
      CollectStepKeys(es, c, key);
      CollectKeys(init, Collect(init).value, key);
      assert forall i :: 0 <= i < n ==> es[i] == init[i];
      if Provides(es[n], key) {
        assert exists i :: 0 <= i < |es| && Provides(es[i], key);
      }
    }
  }

  /** One step of the fold: the key is known after it iff it was known before or the last file provides it. */
  lemma CollectStepKeys(es: seq<Contribution>, c: Catalog, key: string)
    requires es != [] && Collect(es) == Ok(c)
    ensures Collect(es[..|es| - 1]).Ok?
    ensures Lookup(c, key).Some? <==> Lookup(Collect(es[..|es| - 1]).value, key).Some? || Provides(es[|es| - 1], key)
  {
  }

  /** The description of a key in a successful listing is the one from the last file that provides it. */
  lemma {:induction false} CollectLastWins(es: seq<Contribution>, c: Catalog, key: string, i: int)
    requires Collect(es) == Ok(c)
    requires LastProvider(es, i, key)
    ensures Lookup(c, key) == Some(es[i].value.value.1)
  {
    var n := |es| - 1;
    var init := es[..n];
    var c0 := Collect(init).value;
    if i < n {
      assert !Provides(es[n], key);
      assert Lookup(c, key) == Lookup(c0, key);
      forall j | i < j < |init| ensures !Provides(init[j], key) {
        assert init[j] == es[j];
      }
      assert init[i] == es[i];
      CollectLastWins(init, c0, key, i);
    }
  }

  /** The listing fails exactly when some contribution is an error, and then with the first one. */
  lemma {:induction false} CollectFailure(es: seq<Contribution>)
    ensures Collect(es).Err? <==> exists i :: 0 <= i < |es| && es[i].Err?
    ensures Collect(es).Err? ==>
      exists i :: 0 <= i < |es| && es[i] == Err(Collect(es).error)
        && forall j :: 0 <= j < i ==> es[j].Ok?
  {
    if es != [] {
      var n := |es| - 1;
      var init := es[..n];
      assert forall i :: 0 <= i < n ==> init[i] == es[i];
      CollectFailure(init);
    }
  }

  lemma {:induction false} CollectErrorPersists(es: seq<Contribution>, n: nat, e: CatalogError)
    requires n <= |es|
    requires Collect(es[..n]) == Err(e)
    ensures Collect(es) == Err(e)
  {
    if n < |es| {
      var m := |es| - 1;
      assert es[..m][..n] == es[..n];
      CollectErrorPersists(es[..m], n, e);
    } else {
      assert es[..n] == es;
    }
  }

  /** list_available_agents: one pass over the directory listing, filling the dict. */
  method ListAvailableAgents(files: seq<SpecFile>) returns (r: Result<Catalog, CatalogError>)
    ensures r == CatalogOf(files)
  {
    ghost var es := Contributions(files);
    var c: Catalog := [];
    var i := 0;
    while i < |files|
      invariant 0 <= i <= |files|
      invariant Collect(es[..i]) == Ok(c)
    {
      assert es[..i + 1][..i] == es[..i];
      match Entry(files[i]) {
        case Err(e) =>
          CollectErrorPersists(es, i + 1, e);
          return Err(e);
        case Ok(None) =>
        case Ok(Some(p)) =>
          c := Put(c, p.0, p.1);
      }
      i := i + 1;
    }
    assert es[..i] == es;
    r := Ok(c);
  }

  /** The catalog entries of the agents in the roster, in catalog order. */
  function RosterView(c: Catalog, roster: set<string>): (r: Catalog)
    ensures forall p :: p in r <==> p in c && p.0 in roster
    ensures forall k :: Lookup(r, k) == if k in roster then Lookup(c, k) else None
  {
    if c == [] then []
    else if c[0].0 in roster then [c[0]] + RosterView(c[1..], roster)
    else RosterView(c[1..], roster)
  }

  /** A roster member missing from the catalog has no entry in the view. */
  lemma RosterViewDropsUnknown(c: Catalog, roster: set<string>, id: string)
    requires id in roster && Lookup(c, id).None?
    ensures Lookup(RosterView(c, roster), id).None?
  {
  }

  /** One line `- name: description` per catalog entry; `show` is Python's `str()` of the description. */
  function AgentLines(c: Catalog, show: Json -> string): (lines: seq<string>)
    ensures |lines| == |c|
    ensures forall i :: 0 <= i < |c| ==> lines[i] == "- " + c[i].0 + ": " + show(c[i].1)
  {
    seq(|c|, i requires 0 <= i < |c| => "- " + c[i].0 + ": " + show(c[i].1))
  }

  /** agents_to_string: the lines joined by newlines. */
  function AgentsToString(c: Catalog, show: Json -> string): string
  {
    Join(AgentLines(c, show), "\n")
  }

  /** When no name or description holds a newline, the rendering splits back into one line per entry. */
  lemma AgentsToStringLines(c: Catalog, show: Json -> string)
    requires c != []
    requires forall i :: 0 <= i < |c| ==> '\n' !in c[i].0 && '\n' !in show(c[i].1)
    ensures Split(AgentsToString(c, show), '\n') == AgentLines(c, show)
  {
    var lines := AgentLines(c, show);
    forall k | 0 <= k < |lines| ensures '\n' !in lines[k] {
      assert lines[k] == "- " + c[k].0 + ": " + show(c[k].1);
    }
    SplitJoin(lines, '\n');
  }

  // ---------------------------------------------------------------------------
  // Evaluator verdict

  datatype Verdict = NoJudgement | NotBestFitting | BestFitting

  /** How the moderator reads the evaluator's score: "NA" gives no judgement, then a "0" means "not best-fitting". */
  function Judge(score: string): (v: Verdict)
    ensures v == NoJudgement <==> ContainsSub(score, "NA")
    ensures v == NotBestFitting <==> !ContainsSub(score, "NA") && '0' in score
    ensures v == BestFitting <==> !ContainsSub(score, "NA") && '0' !in score
  {
    assert ContainsSub(score, "0") <==> '0' in score by {
      if '0' in score {
        var i :| 0 <= i < |score| && score[i] == '0';
        assert OccursAt(score, "0", i);
      }
      if ContainsSub(score, "0") {
        var i :| 0 <= i <= |score| - 1 && OccursAt(score, "0", i);
        assert score[i] == '0';
      }
    }
    if ContainsSub(score, "NA") then NoJudgement
    else if ContainsSub(score, "0") then NotBestFitting
    else BestFitting
  }

  // ---------------------------------------------------------------------------
  // Turn taking

  /** The derived speaking right: nobody, or the agent named by the last RequestToSpeak. */
  datatype Grant = Idle | Granted(agent: string)

  function AfterPublish(g: Grant, e: Envelope): Grant
  {
    if e.RequestToSpeak? then (if e.target == UserProxy then Idle else Granted(e.target)) else g
  }

  function GrantAfter(g: Grant, es: seq<Envelope>): Grant
  {
    if es == [] then g else AfterPublish(GrantAfter(g, es[..|es| - 1]), es[|es| - 1])
  }

  /** `es[i]` is the last RequestToSpeak of `es`. */
  predicate LastRequest(es: seq<Envelope>, i: int)
  {
    0 <= i < |es| && es[i].RequestToSpeak? && forall j :: i < j < |es| ==> !es[j].RequestToSpeak?
  }

  /** Answers without a RequestToSpeak leave the speaking right as it was. */
  lemma {:induction false} NoRequestKeepsGrant(g: Grant, es: seq<Envelope>)
    requires forall i :: 0 <= i < |es| ==> !es[i].RequestToSpeak?
    ensures GrantAfter(g, es) == g
  {
    if es != [] {
      var init := es[..|es| - 1];
      assert forall i :: 0 <= i < |init| ==> init[i] == es[i];
      NoRequestKeepsGrant(g, init);
    }
  }

  /** After publishing `es`, the speaking right is the one the last RequestToSpeak gave. */
  lemma {:induction false} GrantIsLastRequest(g: Grant, es: seq<Envelope>, i: int)
    requires LastRequest(es, i)
    ensures GrantAfter(g, es) == if es[i].target == UserProxy then Idle else Granted(es[i].target)
  {
    var n := |es| - 1;
    var init := es[..n];
    if i < n {
      assert forall j :: 0 <= j < n ==> init[j] == es[j];
      assert LastRequest(init, i);
      GrantIsLastRequest(g, init, i);
      assert !es[n].RequestToSpeak?;
    }
  }

  /** The convention of the moderator's prompt: no two RequestToSpeak grant the right to different agents. */
  predicate SingleSpeaker(es: seq<Envelope>)
  {
    forall i, j ::
      (0 <= i < |es| && 0 <= j < |es| && es[i].RequestToSpeak? && es[j].RequestToSpeak?
       && es[i].target != UserProxy && es[j].target != UserProxy) ==> es[i].target == es[j].target
  }

  /** The agents an answer list invites. */
  function Invited(es: seq<Envelope>): set<string>
  {
    set i | 0 <= i < |es| && es[i].InviteToChat? :: es[i].target
  }

  /** What the moderator publishes when the decision cannot be parsed. */
  function Fallback(error: string): (es: seq<Envelope>)
  {
    [ChatMessage(ModeratorId, "Moderator failed: " + error), RequestToSpeak(ModeratorId, UserProxy)]
  }

  /** The fallback keeps the convention, invites nobody and hands control back to the user. */
  lemma FallbackReturnsControl(g: Grant, error: string)
    ensures SingleSpeaker(Fallback(error))
    ensures Invited(Fallback(error)) == {}
    ensures GrantAfter(g, Fallback(error)) == Idle
  {
    var es := Fallback(error);
    assert es[..1] == [es[0]];
    assert !es[0].InviteToChat? && !es[1].InviteToChat?;
  }

  // ---------------------------------------------------------------------------
  // The decision cycle: on_message_received

  /** The prompt variables handed to the decision. */
  datatype DecisionInput = DecisionInput(agentsList: string, chatAgentList: string, history: seq<Json>, query: Json)

  /** The evaluator's input for one published answer. */
  datatype EvaluatorInput = EvaluatorInput(agents: Catalog, history: seq<Json>, query: Json, answer: Json)

  datatype CycleOutcome =
    | NotAChatMessage          // a control message: recorded, nothing decided
    | Decided                  // the decision's answers were recorded and published
    | FellBack(error: string)  // the decision could not be parsed; the fallback was published
    | MalformedIncoming        // the message is not a dict with a "type": the callback raises
    | CatalogFailed(cause: CatalogError)  // reading the agents directory raised

  /** `json_message["type"]` can be evaluated. */
  predicate HasType(j: Json)
  {
    j.JObj? && "type" in j.fields
  }

  predicate IsChat(j: Json)
  {
    HasType(j) && j.fields["type"] == JStr("ChatMessage")
  }

  /** What the decision is asked, given the catalog, the roster and the history with the incoming message. */
  function DecisionFor(c: Catalog, roster: set<string>, history: seq<Json>, incoming: Json, show: Json -> string): DecisionInput
  {
    DecisionInput(AgentsToString(c, show), AgentsToString(RosterView(c, roster), show), history, incoming)
  }

  lemma InvitedSnoc(es: seq<Envelope>, i: int)
    requires 0 <= i < |es|
    ensures Invited(es[..i + 1]) == Invited(es[..i]) + (if es[i].InviteToChat? then {es[i].target} else {})
  {
    var s := es[..i + 1];
    var t := es[..i];
    forall k | k in Invited(s) ensures k in Invited(t) + (if es[i].InviteToChat? then {es[i].target} else {}) {
      var j :| 0 <= j < |s| && s[j].InviteToChat? && s[j].target == k;
      if j < i { assert t[j] == s[j]; }
    }
    forall k | k in Invited(t) ensures k in Invited(s) {
      var j :| 0 <= j < |t| && t[j].InviteToChat? && t[j].target == k;
      assert s[j] == t[j];
    }
  }

  lemma EncodeAllSnoc(es: seq<Envelope>, i: int)
    requires 0 <= i < |es|
    ensures EncodeAll(es[..i + 1]) == EncodeAll(es[..i]) + [Encode(es[i])]
  {
  }

  /**
   * `v` is the verdict on answer `k`: the evaluator saw the catalog, the
   * history up to and including that answer, the query and the answer.
   */
  predicate JudgedAt(v: Verdict, c: Catalog, h: seq<Json>, query: Json, answers: seq<Envelope>, k: int, evaluate: EvaluatorInput -> string)
    requires 0 <= k < |answers|
  {
    v == Judge(evaluate(EvaluatorInput(c, h + EncodeAll(answers[..k + 1]), query, Encode(answers[k]))))
  }

  lemma AdvanceOutbox(o0: seq<Envelope>, before: seq<Envelope>, answers: seq<Envelope>, i: int)
    requires 0 <= i < |answers| && before == o0 + answers[..i]
    ensures before + [answers[i]] == o0 + answers[..i + 1]
  {
    assert answers[..i + 1] == answers[..i] + [answers[i]];
  }

  lemma AdvanceRoster(r0: set<string>, before: set<string>, answers: seq<Envelope>, i: int)
    requires 0 <= i < |answers| && before == r0 + Invited(answers[..i])
    ensures before + (if answers[i].InviteToChat? then {answers[i].target} else {}) == r0 + Invited(answers[..i + 1])
  {
    InvitedSnoc(answers, i);
  }

  lemma AdvanceGrant(g0: Grant, answers: seq<Envelope>, i: int)
    requires 0 <= i < |answers|
    ensures GrantAfter(g0, answers[..i + 1]) == AfterPublish(GrantAfter(g0, answers[..i]), answers[i])
  {
    assert answers[..i + 1][..i] == answers[..i];
  }

  class Moderator {
    var history: seq<Json>
    var roster: set<string>
    var outbox: seq<Envelope>
    ghost var grant: Grant
    /** The roster at the moment each envelope of `outbox` was published. */
    ghost var rosterAtPublish: seq<set<string>>

    ghost predicate Valid()
      reads this
    {
      && |rosterAtPublish| == |outbox|
      && (forall i :: 0 <= i < |outbox| ==> rosterAtPublish[i] <= roster)
      && (forall i :: 0 <= i < |outbox| && outbox[i].InviteToChat? ==> outbox[i].target in rosterAtPublish[i])
    }

    constructor ()
      ensures Valid()
      ensures history == [] && roster == {} && outbox == [] && grant == Idle
    {
      history, roster, outbox := [], {}, [];
      grant, rosterAtPublish := Idle, [];
    }

    /**
     * One run of the callback for the message `incoming`. The message is
     * recorded first. Only a ChatMessage is decided on: the catalog is read
     * from `files`, the decision is asked, and each answer is applied to the
     * roster (InviteToChat), recorded and published in order, with the
     * evaluator's verdict on it. A decision that cannot be parsed is replaced
     * by the two-envelope fallback.
     */
    method OnMessageReceived(
      incoming: Json,
      files: seq<SpecFile>,
      decide: DecisionInput -> Result<seq<Envelope>, string>,
      evaluate: EvaluatorInput -> string,
      show: Json -> string)
      returns (outcome: CycleOutcome, verdicts: seq<Verdict>)
      requires Valid()
      modifies this
      ensures Valid()
      ensures old(roster) <= roster
      ensures |old(history)| < |history| && history[..|old(history)| + 1] == old(history) + [incoming]
      ensures !IsChat(incoming) || CatalogOf(files).Err? ==>
        && outcome == (if !HasType(incoming) then MalformedIncoming
                       else if !IsChat(incoming) then NotAChatMessage
                       else CatalogFailed(CatalogOf(files).error))
        && history == old(history) + [incoming]
        && roster == old(roster) && outbox == old(outbox) && grant == old(grant) && verdicts == []
      ensures IsChat(incoming) && CatalogOf(files).Ok? ==>
        var c := CatalogOf(files).value;
        var h := old(history) + [incoming];
        match decide(DecisionFor(c, old(roster), h, incoming, show))
        case Ok(answers) =>
          && outcome == Decided
          && history == h + EncodeAll(answers)
          && roster == old(roster) + Invited(answers)
          && outbox == old(outbox) + answers
          && grant == GrantAfter(old(grant), answers)
          && |verdicts| == |answers|
          && forall i :: 0 <= i < |answers| ==> JudgedAt(verdicts[i], c, h, incoming, answers, i, evaluate)
        case Err(e) =>
          && outcome == FellBack(e)
          && history == h + EncodeAll(Fallback(e))
          && roster == old(roster)
          && outbox == old(outbox) + Fallback(e)
          && grant == Idle
          && verdicts == []
    {
      history := history + [incoming];
      verdicts := [];
      if !HasType(incoming) {
        return MalformedIncoming, [];
      }
      if incoming.fields["type"] != JStr("ChatMessage") {
        return NotAChatMessage, [];
      }
      var listed := ListAvailableAgents(files);
      if listed.Err? {
        return CatalogFailed(listed.error), [];
      }
      var c := listed.value;
      var decision := decide(DecisionFor(c, roster, history, incoming, show));
      match decision {
        case Ok(answers) =>
          verdicts := PublishAnswers(answers, c, incoming, evaluate);
          outcome := Decided;
        case Err(e) =>
          PublishFallback(e);
          outcome := FellBack(e);
      }
    }

    /** The loop over the decision's answers: roster update, history, evaluator verdict, publication. */
    method PublishAnswers(answers: seq<Envelope>, c: Catalog, incoming: Json, evaluate: EvaluatorInput -> string)
      returns (verdicts: seq<Verdict>)
      requires Valid()
      modifies this
      ensures Valid()
      ensures history == old(history) + EncodeAll(answers)
      ensures roster == old(roster) + Invited(answers)
      ensures outbox == old(outbox) + answers
      ensures grant == GrantAfter(old(grant), answers)
      ensures |verdicts| == |answers|
      ensures forall i :: 0 <= i < |answers| ==> JudgedAt(verdicts[i], c, old(history), incoming, answers, i, evaluate)
    {
      verdicts := [];
      var i := 0;
      while i < |answers|
        invariant 0 <= i <= |answers|
        invariant history == old(history) + EncodeAll(answers[..i])
        invariant roster == old(roster) + Invited(answers[..i])
        invariant outbox == old(outbox) + answers[..i]
        invariant grant == GrantAfter(old(grant), answers[..i])
        invariant Valid()
        invariant |verdicts| == i
        invariant forall k :: 0 <= k < i ==> JudgedAt(verdicts[k], c, old(history), incoming, answers, k, evaluate)
      {
        ghost var beforeOutbox, beforeRoster, beforeGrant := outbox, roster, grant;
        var v := PublishStep(answers, i, c, old(history), incoming, evaluate);
        AdvanceOutbox(old(outbox), beforeOutbox, answers, i);
        AdvanceRoster(old(roster), beforeRoster, answers, i);
        AdvanceGrant(old(grant), answers, i);
        verdicts := verdicts + [v];
        i := i + 1;
      }
      assert answers[..i] == answers;
    }

    /** One turn of the loop: publish answer `i`, then ask the evaluator about it. */
    method PublishStep(answers: seq<Envelope>, i: int, c: Catalog, ghost h0: seq<Json>, incoming: Json,
                       evaluate: EvaluatorInput -> string) returns (v: Verdict)
      requires 0 <= i < |answers|
      requires Valid()
      requires history == h0 + EncodeAll(answers[..i])
      modifies this
      ensures Valid()
      ensures history == h0 + EncodeAll(answers[..i + 1])
      ensures roster == old(roster) + (if answers[i].InviteToChat? then {answers[i].target} else {})
      ensures outbox == old(outbox) + [answers[i]]
      ensures grant == AfterPublish(old(grant), answers[i])
      ensures JudgedAt(v, c, h0, incoming, answers, i, evaluate)
    {
      EncodeAllSnoc(answers, i);
      Publish(answers[i]);
      var score := evaluate(EvaluatorInput(c, history, incoming, Encode(answers[i])));
      v := Judge(score);
    }

    /** One answer: a target it invites joins the roster, it is recorded in the history, and it is published. */
    method Publish(answer: Envelope)
      requires Valid()
      modifies this
      ensures Valid()
      ensures history == old(history) + [Encode(answer)]
      ensures roster == old(roster) + (if answer.InviteToChat? then {answer.target} else {})
      ensures outbox == old(outbox) + [answer]
      ensures grant == AfterPublish(old(grant), answer)
    {
      if answer.InviteToChat? {
        roster := roster + {answer.target};
      }
      history := history + [Encode(answer)];
      outbox := outbox + [answer];
      rosterAtPublish := rosterAtPublish + [roster];
      grant := AfterPublish(grant, answer);
    }

    /** The OutputParserException branch: a failure notice, then the floor back to the user proxy. */
    method PublishFallback(error: string)
      requires Valid()
      modifies this
      ensures Valid()
      ensures history == old(history) + EncodeAll(Fallback(error))
      ensures roster == old(roster)
      ensures outbox == old(outbox) + Fallback(error)
      ensures grant == Idle
    {
      var notice := ChatMessage(ModeratorId, "Moderator failed: " + error);
      Publish(notice);
      var handBack := RequestToSpeak(ModeratorId, UserProxy);
      Publish(handBack);
      assert EncodeAll(Fallback(error)) == [Encode(notice), Encode(handBack)];
    }
  }
}
