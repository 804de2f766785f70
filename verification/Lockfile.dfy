/** The run-directory lock (pkg/aclrbac/rundir/lockfile.go): a protocol of any number of processes
    over one path, whose only atomic operations are exclusive create, read and remove. */
module Lockfile {
  import opened Types
  import opened RuntimeEnvFile

  // ---------------------------------------------------------------------------
  // The lock body

  /** `strings.Split(s, "\n")`. */
  function Split(s: string): seq<string>
    decreases |s|
  {
    var i := IndexOf(s, '\n');
    if i < 0 then [s] else [s[..i]] + Split(s[i + 1..])
  }

  datatype LockInfo = LockInfo(pid: int, host: string, cmd: string, token: string)

  predicate HasPrefix(s: string, p: string) { p <= s }

  function NoteLine(info: LockInfo, line: string): LockInfo {
    if HasPrefix(line, "pid=") then
      info.(pid := match ParseInt(line[4..]) case None => 0 case Some(n) => n)
    else if HasPrefix(line, "hostname=") then info.(host := line[9..])
    else if HasPrefix(line, "cmd=") then info.(cmd := line[4..])
    else if HasPrefix(line, "token=") then info.(token := line[6..])
    else info
  }

  /** Later lines override earlier ones. */
  function NoteLines(info: LockInfo, lines: seq<string>): LockInfo
    decreases lines
  {
    if lines == [] then info else NoteLines(NoteLine(info, lines[0]), lines[1..])
  }

  function LockInfoOf(data: string): LockInfo { NoteLines(LockInfo(0, "", "", ""), Split(data)) }

  method ParseLock(data: string) returns (info: LockInfo)
    ensures info == LockInfoOf(data)
  {
    hide NoteLine;
    info := LockInfo(0, "", "", "");
    var lines := Split(data);
    for i := 0 to |lines|
      invariant NoteLines(info, lines[i..]) == LockInfoOf(data)
    {
      assert lines[i..][1..] == lines[i + 1..];
      info := NoteLine(info, lines[i]);
    }
  }

  function LockBody(pid: int, host: string, cmd: string, started: string, token: string): string {
    "pid=" + IntText(pid) + "\nhostname=" + host + "\ncmd=" + cmd + "\nstarted=" + started + "\ntoken=" + token + "\n"
  }

  lemma IndexIsFirst(s: string, c: char, i: nat)
    requires i < |s| && s[i] == c && c !in s[..i]
    ensures IndexOf(s, c) == i
  {
  }

  lemma {:induction false} SplitAtNewline(a: string, b: string)
    ensures Split(a + "\n" + b) == Split(a) + Split(b)
    decreases |a|
  {
    hide IndexOf;
    var s, i := a + "\n" + b, IndexOf(a, '\n');
    if i < 0 {
      assert s[..|a|] == a && s[|a| + 1..] == b;
      IndexIsFirst(s, '\n', |a|);
    } else {
      var rest := a[i + 1..] + "\n" + b;
      assert s[..i] == a[..i] && s[i + 1..] == rest;
      IndexIsFirst(s, '\n', i);
      SplitAtNewline(a[i + 1..], b);
      assert [a[..i]] + (Split(a[i + 1..]) + Split(b)) == [a[..i]] + Split(a[i + 1..]) + Split(b);
    }
  }

  lemma {:induction false} NoteLinesAppend(info: LockInfo, a: seq<string>, b: seq<string>)
    ensures NoteLines(info, a + b) == NoteLines(NoteLines(info, a), b)
    decreases a
  {
    hide NoteLine;
    if a == [] {
      assert a + b == b;
    } else {
      assert (a + b)[0] == a[0] && (a + b)[1..] == a[1..] + b;
      NoteLinesAppend(NoteLine(info, a[0]), a[1..], b);
    }
  }

  lemma NoteTokenLine(info: LockInfo, token: string)
    ensures NoteLine(info, "token=" + token).token == token
    ensures NoteLine(info, "") == info
  {
    var line := "token=" + token;
    assert line[0] == 't' && line[6..] == token;
    assert "token=" <= line;
  }

  /** A holder always recognises its own lock: whatever the host, command and start time contain,
      the token parsed from the body is the one written. */
  lemma OwnTokenRecognised(pid: int, host: string, cmd: string, started: string, token: string)
    requires '\n' !in token
    ensures LockInfoOf(LockBody(pid, host, cmd, started, token)).token == token
  {
    var head := "pid=" + IntText(pid) + "\nhostname=" + host + "\ncmd=" + cmd + "\nstarted=" + started;
    TokenLast(head, token);
    assert LockBody(pid, host, cmd, started, token) == head + "\n" + ("token=" + token + "\n" + "");
    hide *;
    TokenLineWins(head, token);
  }

  lemma TokenLineWins(head: string, token: string)
    requires '\n' !in token
    ensures LockInfoOf(head + "\n" + ("token=" + token + "\n" + "")).token == token
  {
    var line := "token=" + token;
    assert Split(line) == [line] && Split("") == [""];
    SplitAtNewline(head, line + "\n" + "");
    SplitAtNewline(line, "");
    hide Split;
    NotesEndWithToken(Split(head), token);
  }

  lemma NotesEndWithToken(lines: seq<string>, token: string)
    ensures NoteLines(LockInfo(0, "", "", ""), lines + (["token=" + token] + [""])).token == token
  {
    var start, line := LockInfo(0, "", "", ""), "token=" + token;
    var mid := NoteLines(start, lines);
    NoteTokenLine(mid, token);
    NoteTokenLine(NoteLine(mid, line), token);
    hide NoteLine;
    NoteLinesAppend(start, lines, [line] + [""]);
    assert ([line] + [""])[1..] == [""] && [""][1..] == [];
    assert NoteLines(mid, [line] + [""]) == NoteLines(NoteLine(mid, line), [""]);
  }

  lemma TokenLast(head: string, token: string)
    ensures head + "\ntoken=" + token + "\n" == head + "\n" + ("token=" + token + "\n" + "")
  {
    assert "\ntoken=" == "\n" + "token=";
    assert head + ("\n" + "token=") == (head + "\n") + "token=";
  }

  lemma ReadPid(info: LockInfo, pid: int)
    requires MIN_INT <= pid <= MAX_INT
    ensures NoteLine(info, "pid=" + IntText(pid)) == info.(pid := pid)
  {
    ParseIntText(pid);
    var line := "pid=" + IntText(pid);
    assert line[4..] == IntText(pid) && "pid=" <= line;
  }

  lemma ReadHost(info: LockInfo, host: string)
    ensures NoteLine(info, "hostname=" + host) == info.(host := host)
  {
    var line := "hostname=" + host;
    assert line[0] == 'h' && line[9..] == host && "hostname=" <= line;
  }

  lemma ReadCmd(info: LockInfo, cmd: string)
    ensures NoteLine(info, "cmd=" + cmd) == info.(cmd := cmd)
  {
    var line := "cmd=" + cmd;
    assert line[0] == 'c' && line[4..] == cmd && "cmd=" <= line;
  }

  lemma ReadStarted(info: LockInfo, started: string)
    ensures NoteLine(info, "started=" + started) == info
  {
    var line := "started=" + started;
    assert line[0] == 's';
  }

  lemma ReadToken(info: LockInfo, token: string)
    ensures NoteLine(info, "token=" + token) == info.(token := token)
  {
    var line := "token=" + token;
    assert line[0] == 't' && line[6..] == token && "token=" <= line;
  }

  lemma SplitLine(line: string, rest: string)
    requires '\n' !in line
    ensures Split(line + "\n" + rest) == [line] + Split(rest)
  {
    SplitAtNewline(line, rest);
  }

  /** The lines of a body, each ended by a newline. */
  lemma BodyLines(pid: string, host: string, cmd: string, started: string, token: string)
    requires '\n' !in pid && '\n' !in host && '\n' !in cmd && '\n' !in started && '\n' !in token
    ensures Split(pid + "\n" + (host + "\n" + (cmd + "\n" + (started + "\n" + (token + "\n" + ""))))) ==
            [pid, host, cmd, started, token, ""]
  {
    hide Split;
    SplitLine(pid, host + "\n" + (cmd + "\n" + (started + "\n" + (token + "\n" + ""))));
    SplitLine(host, cmd + "\n" + (started + "\n" + (token + "\n" + "")));
    SplitLine(cmd, started + "\n" + (token + "\n" + ""));
    SplitLine(started, token + "\n" + "");
    SplitLine(token, "");
    SplitEmpty();
  }

  lemma SplitEmpty()
    ensures Split("") == [""]
  {
  }

  lemma SixNotes(info: LockInfo, a: string, b: string, c: string, d: string, e: string, f: string)
    ensures NoteLines(info, [a, b, c, d, e, f]) == NoteLine(NoteLine(NoteLine(NoteLine(NoteLine(NoteLine(info, a), b), c), d), e), f)
  {
    hide NoteLine;
    NoteLinesAppend(info, [a, b, c], [d, e, f]);
    assert [a, b, c] + [d, e, f] == [a, b, c, d, e, f];
    ThreeNotes(info, a, b, c);
    ThreeNotes(NoteLine(NoteLine(NoteLine(info, a), b), c), d, e, f);
  }

  lemma ThreeNotes(info: LockInfo, a: string, b: string, c: string)
    ensures NoteLines(info, [a, b, c]) == NoteLine(NoteLine(NoteLine(info, a), b), c)
  {
    hide NoteLine;
    assert [a, b, c][1..] == [b, c] && [b, c][1..] == [c] && [c][1..] == [];
    assert NoteLines(NoteLine(NoteLine(info, a), b), [c]) == NoteLine(NoteLine(NoteLine(info, a), b), c);
  }

  lemma NextLine(before: string, opening: string, key: string, v: string, rest: string)
    requires opening == "\n" + key
    ensures (before + opening + v) + "\n" + rest == before + "\n" + ((key + v) + "\n" + rest)
  {
    assert opening + v == "\n" + (key + v);
    assert before + opening + v == before + "\n" + (key + v);
  }

  lemma BodyText(pid: int, host: string, cmd: string, started: string, token: string)
    ensures LockBody(pid, host, cmd, started, token) ==
            ("pid=" + IntText(pid)) + "\n" + (("hostname=" + host) + "\n" + (("cmd=" + cmd) + "\n" +
              (("started=" + started) + "\n" + (("token=" + token) + "\n" + ""))))
  {
    hide IntText;
    var a := "pid=" + IntText(pid);
    var b := a + "\nhostname=" + host;
    var c := b + "\ncmd=" + cmd;
    var d := c + "\nstarted=" + started;
    var rest5 := ("token=" + token) + "\n" + "";
    var rest4 := ("started=" + started) + "\n" + rest5;
    var rest3 := ("cmd=" + cmd) + "\n" + rest4;
    assert LockBody(pid, host, cmd, started, token) == (d + "\ntoken=" + token) + "\n" + "";
    hide LockBody;
    NextLine(d, "\ntoken=", "token=", token, "");
    NextLine(c, "\nstarted=", "started=", started, rest5);
    NextLine(b, "\ncmd=", "cmd=", cmd, rest4);
    NextLine(a, "\nhostname=", "hostname=", host, rest3);
  }

  /** A body whose texts hold no newline reads back as it was written: process, host, command and token. */
  lemma BodyReadsBack(pid: int, host: string, cmd: string, started: string, token: string)
    requires MIN_INT <= pid <= MAX_INT
    requires '\n' !in host && '\n' !in cmd && '\n' !in started && '\n' !in token
    ensures LockInfoOf(LockBody(pid, host, cmd, started, token)) == LockInfo(pid, host, cmd, token)
  {
    hide NoteLine, Split, IntText, NoteLines, LockBody;
    var a, b, c, d, e := "pid=" + IntText(pid), "hostname=" + host, "cmd=" + cmd, "started=" + started, "token=" + token;
    IntTextEnds(pid);
    BodyText(pid, host, cmd, started, token);
    BodyLines(a, b, c, d, e);
    var info := LockInfo(0, "", "", "");
    SixNotes(info, a, b, c, d, e, "");
    ReadPid(info, pid);
    ReadHost(info.(pid := pid), host);
    ReadCmd(LockInfo(pid, host, "", ""), cmd);
    ReadStarted(LockInfo(pid, host, cmd, ""), started);
    ReadToken(LockInfo(pid, host, cmd, ""), token);
    NoteTokenLine(LockInfo(pid, host, cmd, token), "");
  }

  // ---------------------------------------------------------------------------
  // The protocol

  /** Where a process is. A file is known by its inode, numbered in order of creation; each create
      writes a token of its own, so an inode stands for its token. `attempt` counts from 0. */
  datatype Phase =
    | Trying(attempt: nat)
    | Inspecting(attempt: nat)
    | Removing(attempt: nat)
    | Created(inode: nat)
    | Holding(inode: nat)
    | ReleaseRead(inode: nat)
    | ReleaseRemove(inode: nat)
    | Released
    | Failed

  datatype State = State(
    path: Option<nat>, written: set<nat>, next: nat, procs: map<nat, Phase>, creates: map<nat, nat>)

  predicate InLock(ph: Phase) { ph.Created? || ph.Holding? || ph.ReleaseRead? || ph.ReleaseRemove? }

  datatype Event =
    | CreateWins | CreateLoses | CreateError | WriteBody | WriteError
    | InspectGone | InspectHeld | InspectError | RemoveOld | RemoveOldError
    | StartRelease | ReadGone | ReadMine | ReadForeign | ReadError | RemoveMine | RemoveMineError

  function Retry(attempt: nat): Phase { if attempt + 1 < 2 then Trying(attempt + 1) else Failed }

  function WithPhase(s: State, p: nat, ph: Phase): State { s.(procs := s.procs[p := ph]) }

  function CountCreate(s: State, p: nat): map<nat, nat> {
    s.creates[p := (if p in s.creates then s.creates[p] else 0) + 1]
  }

  /** Whether process `p`, with or without `--force-unlock`, can take an event. */
  predicate Enabled(s: State, p: nat, force: bool, e: Event) {
    p in s.procs && match e
    case CreateWins => s.procs[p].Trying? && s.path == None
    case CreateLoses => s.procs[p].Trying? && s.path != None
    case CreateError => s.procs[p].Trying?
    case WriteBody => s.procs[p].Created?
    case WriteError => s.procs[p].Created?
    case InspectGone => s.procs[p].Inspecting? && s.path == None
    case InspectHeld => s.procs[p].Inspecting? && s.path != None
    case InspectError => s.procs[p].Inspecting?
    case RemoveOld => s.procs[p].Removing? && force
    case RemoveOldError => s.procs[p].Removing? && force
    case StartRelease => s.procs[p].Holding?
    case ReadGone => s.procs[p].ReleaseRead? && s.path == None
    case ReadMine => s.procs[p].ReleaseRead? && s.path == Some(s.procs[p].inode) && s.procs[p].inode in s.written
    case ReadForeign => s.procs[p].ReleaseRead? && s.path != None
                        && !(s.path == Some(s.procs[p].inode) && s.procs[p].inode in s.written)
    case ReadError => s.procs[p].ReleaseRead?
    case RemoveMine => s.procs[p].ReleaseRemove?
    case RemoveMineError => s.procs[p].ReleaseRemove?
  }

  /** A body is written through the open file, so it reaches the inode even after an unlink; a remove
      takes away whatever file is at the path. */
  function After(s: State, p: nat, force: bool, e: Event): State
    requires Enabled(s, p, force, e)
  {
    var ph := s.procs[p];
    match e
    case CreateWins =>
      s.(path := Some(s.next), next := s.next + 1, procs := s.procs[p := Created(s.next)], creates := CountCreate(s, p))
    case CreateLoses => s.(procs := s.procs[p := Inspecting(ph.attempt)], creates := CountCreate(s, p))
    case CreateError => s.(procs := s.procs[p := Failed], creates := CountCreate(s, p))
    case WriteBody => s.(written := s.written + {ph.inode}, procs := s.procs[p := Holding(ph.inode)])
    case WriteError => WithPhase(s, p, Failed)
    case InspectGone => WithPhase(s, p, Retry(ph.attempt))
    case InspectHeld => WithPhase(s, p, if force then Removing(ph.attempt) else Failed)
    case InspectError => WithPhase(s, p, Failed)
    case RemoveOld => WithPhase(s, p, Retry(ph.attempt)).(path := None)
    case RemoveOldError => WithPhase(s, p, Failed)
    case StartRelease => WithPhase(s, p, ReleaseRead(ph.inode))
    case ReadGone => WithPhase(s, p, Released)
    case ReadMine => WithPhase(s, p, ReleaseRemove(ph.inode))
    case ReadForeign => WithPhase(s, p, Released)
    case ReadError => WithPhase(s, p, Released)
    case RemoveMine => WithPhase(s, p, Released).(path := None)
    case RemoveMineError => WithPhase(s, p, Released)
  }

  datatype Act = Act(proc: nat, force: bool, event: Event)

  ghost predicate Initial(s: State) {
    s.creates == map[] && s.written == {} && (s.path.Some? ==> s.path.value < s.next)
    && forall p :: p in s.procs ==> s.procs[p] == Trying(0)
  }

  /** A run: the states visited and the acts between them. */
  ghost predicate Run(states: seq<State>, acts: seq<Act>) {
    && |states| == |acts| + 1 && Initial(states[0])
    && forall i :: 0 <= i < |acts| ==> StepAt(states, acts, i)
  }

  ghost predicate StepAt(states: seq<State>, acts: seq<Act>, i: nat)
    requires i < |acts| && |states| == |acts| + 1
  {
    var a := acts[i];
    Enabled(states[i], a.proc, a.force, a.event) && states[i + 1] == After(states[i], a.proc, a.force, a.event)
  }

  /** What holds in every run, with or without force. */
  ghost predicate Inv(s: State) { InodesBelow(s) && InodesDistinct(s) && CreatesCounted(s) }

  ghost predicate InodesBelow(s: State) {
    && (s.path.Some? ==> s.path.value < s.next)
    && (forall p :: p in s.procs && InLock(s.procs[p]) ==> s.procs[p].inode < s.next)
  }

  ghost predicate InodesDistinct(s: State) {
    forall p, q :: p in s.procs && q in s.procs && p != q && InLock(s.procs[p]) && InLock(s.procs[q])
      ==> s.procs[p].inode != s.procs[q].inode
  }

  function CreatesOf(s: State, p: nat): nat { if p in s.creates then s.creates[p] else 0 }

  ghost predicate CreatesCounted(s: State) {
    && (forall p :: p in s.procs ==> CountedAt(s, p))
    && (forall p :: CreatesOf(s, p) <= 2)
  }

  ghost predicate CountedAt(s: State, p: nat)
    requires p in s.procs
  {
    match s.procs[p]
    case Trying(a) => a < 2 && CreatesOf(s, p) == a
    case Inspecting(a) => a < 2 && CreatesOf(s, p) == a + 1
    case Removing(a) => a < 2 && CreatesOf(s, p) == a + 1
    case _ => true
  }

  lemma InodesStep(s: State, a: Act)
    requires InodesBelow(s) && InodesDistinct(s) && Enabled(s, a.proc, a.force, a.event)
    ensures InodesBelow(After(s, a.proc, a.force, a.event))
    ensures InodesDistinct(After(s, a.proc, a.force, a.event))
  {
  }

  lemma CreatesStep(s: State, a: Act)
    requires CreatesCounted(s) && Enabled(s, a.proc, a.force, a.event)
    ensures CreatesCounted(After(s, a.proc, a.force, a.event))
  {
    var t := After(s, a.proc, a.force, a.event);
    assert CountedAt(s, a.proc);
    forall q ensures q != a.proc ==> CreatesOf(t, q) == CreatesOf(s, q) {}
    forall q | q in t.procs ensures CountedAt(t, q) {
      if q != a.proc { assert q in s.procs && CountedAt(s, q); }
    }
  }

  lemma InvStep(s: State, a: Act)
    requires Inv(s) && Enabled(s, a.proc, a.force, a.event)
    ensures Inv(After(s, a.proc, a.force, a.event))
  {
    InodesStep(s, a);
    CreatesStep(s, a);
  }

  lemma {:induction false} InvAlways(states: seq<State>, acts: seq<Act>, k: nat)
    requires Run(states, acts) && k <= |acts|
    ensures Inv(states[k])
  {
    if k > 0 {
      InvAlways(states, acts, k - 1);
      assert StepAt(states, acts, k - 1);
      InvStep(states[k - 1], acts[k - 1]);
    }
  }

  /** Without force the file at the path is the file of whoever is in the lock. */
  ghost predicate OwnsPath(s: State) {
    forall p :: p in s.procs && InLock(s.procs[p]) ==> s.path == Some(s.procs[p].inode)
  }

  lemma OwnsPathStep(s: State, a: Act)
    requires Inv(s) && OwnsPath(s) && !a.force && Enabled(s, a.proc, a.force, a.event)
    ensures OwnsPath(After(s, a.proc, a.force, a.event))
  {
  }

  lemma {:induction false} OwnsPathAlways(states: seq<State>, acts: seq<Act>, k: nat)
    requires Run(states, acts) && k <= |acts| && forall i :: 0 <= i < |acts| ==> !acts[i].force
    ensures OwnsPath(states[k])
  {
    if k > 0 {
      OwnsPathAlways(states, acts, k - 1);
      InvAlways(states, acts, k - 1);
      assert StepAt(states, acts, k - 1);
      OwnsPathStep(states[k - 1], acts[k - 1]);
    }
  }

  /** Mutual exclusion: in every run without force, of any number of processes, at most one process
      is between its successful create and the end of its release. */
  lemma MutualExclusion(states: seq<State>, acts: seq<Act>, k: nat, p: nat, q: nat)
    requires Run(states, acts) && k <= |acts| && forall i :: 0 <= i < |acts| ==> !acts[i].force
    requires p in states[k].procs && q in states[k].procs
    requires InLock(states[k].procs[p]) && InLock(states[k].procs[q])
    ensures p == q
  {
    InvAlways(states, acts, k);
    OwnsPathAlways(states, acts, k);
  }

  /** A file that is no longer at the path never comes back. */
  ghost predicate Superseded(s: State, inode: nat) { inode < s.next && s.path != Some(inode) }

  /** The file of `p` has been superseded and `p` has not passed the token check of its release. */
  ghost predicate Harmless(s: State, p: nat, inode: nat) {
    && Superseded(s, inode) && p in s.procs
    && (InLock(s.procs[p]) ==> s.procs[p].inode == inode && !s.procs[p].ReleaseRemove?)
    && !s.procs[p].Trying? && !s.procs[p].Inspecting? && !s.procs[p].Removing?
  }

  lemma {:induction false} HarmlessStays(states: seq<State>, acts: seq<Act>, from: nat, k: nat, p: nat, inode: nat)
    requires Run(states, acts) && from <= k <= |acts| && Harmless(states[from], p, inode)
    ensures Harmless(states[k], p, inode)
    decreases k
  {
    if from < k {
      HarmlessStays(states, acts, from, k - 1, p, inode);
      assert StepAt(states, acts, k - 1);
    }
  }

  /** With force: a process that another's takeover finds short of the end of its token check never
      removes anything afterwards. `at` is the takeover's create. */
  lemma TakeoverIsRespected(states: seq<State>, acts: seq<Act>, at: nat, p: nat, k: nat)
    requires Run(states, acts) && at < k < |acts|
    requires acts[at].event == CreateWins && acts[at].proc != p
    requires p in states[at].procs && InLock(states[at].procs[p]) && !states[at].procs[p].ReleaseRemove?
    ensures !RemovesAt(acts, k, p)
  {
    var inode := states[at].procs[p].inode;
    InvAlways(states, acts, at);
    assert StepAt(states, acts, at);
    assert Harmless(states[at + 1], p, inode);
    HarmlessStays(states, acts, at + 1, k, p, inode);
    assert StepAt(states, acts, k);
  }

  predicate RemovesAt(acts: seq<Act>, k: nat, p: nat)
    requires k < |acts|
  {
    acts[k].proc == p && acts[k].event == RemoveMine
  }

  /** Some continuation of the run has `p` remove the file at the path. */
  ghost predicate MayStillRemove(states: seq<State>, acts: seq<Act>, p: nat) {
    exists states', acts', k: nat :: Run(states', acts') && states <= states' && acts <= acts'
                                && |acts| <= k < |acts'| && RemovesAt(acts', k, p)
  }

  /** Exactly then: after a takeover's create, a process that was in the lock can still remove the file
      at the path iff it had already passed the token check of its release. */
  lemma TakeoverIsThreatenedIff(states: seq<State>, acts: seq<Act>, p: nat)
    requires Run(states, acts) && |acts| > 0
    requires acts[|acts| - 1].event == CreateWins && acts[|acts| - 1].proc != p
    requires p in states[|acts|].procs && InLock(states[|acts|].procs[p])
    ensures MayStillRemove(states, acts, p) <==> states[|acts|].procs[p].ReleaseRemove?
  {
    var at := |acts| - 1;
    assert StepAt(states, acts, at);
    if states[|acts|].procs[p].ReleaseRemove? {
      var states', acts' := Extend(states, acts, Act(p, false, RemoveMine));
      assert RemovesAt(acts', |acts|, p);
    } else if MayStillRemove(states, acts, p) {
      var states', acts', k: nat :| Run(states', acts') && states <= states' && acts <= acts'
                               && |acts| <= k < |acts'| && RemovesAt(acts', k, p);
      assert acts'[at] == acts[at] && states'[at] == states[at];
      TakeoverIsRespected(states', acts', at, p, k);
    }
  }

  predicate TakesAway(e: Event) { e == RemoveOld || e == RemoveMine }

  /** No step strictly between `from` and `to` removes a file. */
  ghost predicate NoRemoval(acts: seq<Act>, from: nat, to: nat)
    requires to <= |acts|
  {
    forall i :: from < i < to ==> !TakesAway(acts[i].event)
  }

  /** The file at the path was created at step `c` and nothing has been removed since. */
  ghost predicate CreatedSince(acts: seq<Act>, m: nat, c: nat, k: nat)
    requires k <= |acts|
  {
    m < c < k && acts[c].event == CreateWins && NoRemoval(acts, c, k)
  }

  lemma {:induction false} SupersededStays(states: seq<State>, acts: seq<Act>, from: nat, k: nat, inode: nat)
    requires Run(states, acts) && from <= k <= |acts| && Superseded(states[from], inode)
    ensures Superseded(states[k], inode)
    decreases k
  {
    if from < k {
      SupersededStays(states, acts, from, k - 1, inode);
      assert StepAt(states, acts, k - 1);
    }
  }

  lemma {:induction false} FileStays(states: seq<State>, acts: seq<Act>, c: nat, k: nat, inode: nat)
    requires Run(states, acts) && c < k <= |acts| && states[c + 1].path == Some(inode) && NoRemoval(acts, c, k)
    ensures states[k].path == Some(inode)
    decreases k
  {
    if c + 1 < k {
      FileStays(states, acts, c, k - 1, inode);
      assert StepAt(states, acts, k - 1);
    }
  }

  /** A file at the path is the old one or was created since. */
  lemma {:induction false} FileHasOrigin(states: seq<State>, acts: seq<Act>, m: nat, k: nat, inode: nat)
    requires Run(states, acts) && m < k <= |acts| && states[m + 1].path == Some(inode)
    ensures states[k].path.Some? && states[k].path != Some(inode) ==> exists c: nat :: CreatedSince(acts, m, c, k)
    decreases k
  {
    if m + 1 < k && states[k].path.Some? && states[k].path != Some(inode) {
      FileHasOrigin(states, acts, m, k - 1, inode);
      assert StepAt(states, acts, k - 1);
      if acts[k - 1].event == CreateWins {
        assert CreatedSince(acts, m, k - 1, k);
      } else {
        var c: nat :| CreatedSince(acts, m, c, k - 1);
        assert CreatedSince(acts, m, c, k);
      }
    }
  }

  /** What lies at the path once `p` has read its own token at step `m`: still its own file iff nothing
      was removed since; another's iff one was created since and not removed. */
  lemma FileAfterCheck(states: seq<State>, acts: seq<Act>, m: nat, k: nat, p: nat)
    requires Run(states, acts) && m < k <= |acts| && acts[m].proc == p && acts[m].event == ReadMine
    ensures p in states[m].procs && states[m].procs[p].ReleaseRead?
    ensures var mine := Some(states[m].procs[p].inode);
            && (states[k].path == mine <==> NoRemoval(acts, m, k))
            && (states[k].path.Some? && states[k].path != mine <==> exists c: nat :: CreatedSince(acts, m, c, k))
  {
    assert StepAt(states, acts, m);
    InvAlways(states, acts, m);
    var inode := states[m].procs[p].inode;
    FileHasOrigin(states, acts, m, k, inode);
    if NoRemoval(acts, m, k) {
      FileStays(states, acts, m, k, inode);
    } else {
      var i :| m < i < k && TakesAway(acts[i].event);
      assert StepAt(states, acts, i);
      NextGrows(states, acts, m, i);
      SupersededStays(states, acts, i + 1, k, inode);
    }
    if c: nat :| CreatedSince(acts, m, c, k) {
      assert StepAt(states, acts, c);
      NextGrows(states, acts, m, c);
      FileStays(states, acts, c, k, states[c].next);
    }
  }

  lemma {:induction false} NextGrows(states: seq<State>, acts: seq<Act>, m: nat, k: nat)
    requires Run(states, acts) && m <= k <= |acts|
    ensures states[m].next <= states[k].next
    decreases k
  {
    if m < k {
      NextGrows(states, acts, m, k - 1);
      assert StepAt(states, acts, k - 1);
    }
  }

  /** At step `k` process `p` removes the file of another process that is in the lock. */
  ghost predicate RemovesAnothers(states: seq<State>, acts: seq<Act>, k: nat, p: nat, q: nat) {
    && Run(states, acts) && k < |acts| && RemovesAt(acts, k, p) && p != q
    && p in states[k].procs && q in states[k].procs && InLock(states[k].procs[p]) && InLock(states[k].procs[q])
    && states[k].path == Some(states[k].procs[q].inode) && states[k].procs[q].inode != states[k].procs[p].inode
  }

  /** So a release that passed its token check before a takeover can remove the new owner's file. */
  lemma EarlierReleaseMayRemoveNewFile()
    ensures exists states, acts, k, p, q :: RemovesAnothers(states, acts, k, p, q)
  {
    var states, acts := TakenOverAfterCheck();
    var k := |acts|;
    var taken := states[k];
    states, acts := Extend(states, acts, Act(0, false, RemoveMine));
    hide Run;
    assert states[k] == taken;
    assert RemovesAnothers(states, acts, k, 0, 1);
  }

  /** Process 0 has read its own token; then process 1 takes the lock by force. */
  lemma TakenOverAfterCheck() returns (states: seq<State>, acts: seq<Act>)
    ensures Run(states, acts)
    ensures states[|acts|] == State(Some(1), {0}, 2, map[0 := ReleaseRemove(0), 1 := Created(1)], map[0 := 1, 1 := 2])
  {
    states, acts := CheckedOwnToken();
    hide Run;
    states, acts := Extend(states, acts, Act(1, true, CreateLoses));
    states, acts := Extend(states, acts, Act(1, true, InspectHeld));
    states, acts := Extend(states, acts, Act(1, true, RemoveOld));
    states, acts := Extend(states, acts, Act(1, true, CreateWins));
  }

  lemma CheckedOwnToken() returns (states: seq<State>, acts: seq<Act>)
    ensures Run(states, acts)
    ensures states[|acts|] == State(Some(0), {0}, 1, map[0 := ReleaseRemove(0), 1 := Trying(0)], map[0 := 1])
  {
    states, acts := [State(None, {}, 0, map[0 := Trying(0), 1 := Trying(0)], map[])], [];
    assert Run(states, acts);
    hide Run;
    states, acts := Extend(states, acts, Act(0, false, CreateWins));
    states, acts := Extend(states, acts, Act(0, false, WriteBody));
    states, acts := Extend(states, acts, Act(0, false, StartRelease));
    states, acts := Extend(states, acts, Act(0, false, ReadMine));
  }

  lemma Extend(states: seq<State>, acts: seq<Act>, a: Act) returns (states': seq<State>, acts': seq<Act>)
    requires Run(states, acts) && Enabled(states[|acts|], a.proc, a.force, a.event)
    ensures Run(states', acts') && |states'| == |acts'| + 1 && acts' == acts + [a]
    ensures states' == states + [After(states[|acts|], a.proc, a.force, a.event)]
  {
    states', acts' := states + [After(states[|acts|], a.proc, a.force, a.event)], acts + [a];
    forall i | 0 <= i < |acts'| ensures StepAt(states', acts', i) {
      if i < |acts| { assert StepAt(states, acts, i); }
    }
  }

  // ---------------------------------------------------------------------------
  // Mutual exclusion under force

  /** Two processes are in the lock. */
  ghost predicate Shared(s: State) {
    exists p, q :: p in s.procs && q in s.procs && p != q && InLock(s.procs[p]) && InLock(s.procs[q])
  }

  /** Step `j` removes the file of `p`, which is still in the lock at `k`. */
  ghost predicate LostFile(states: seq<State>, acts: seq<Act>, k: nat, p: nat, j: nat)
    requires |states| == |acts| + 1 && k <= |acts|
  {
    && j < k && p in states[k].procs && InLock(states[k].procs[p])
    && TakesAway(acts[j].event) && states[j].path == Some(states[k].procs[p].inode)
  }

  /** Step `c` creates the file of `q`, which is in the lock at `k`. */
  ghost predicate CreatedFile(states: seq<State>, acts: seq<Act>, k: nat, q: nat, c: nat)
    requires |states| == |acts| + 1 && k <= |acts|
  {
    && c < k && q in states[k].procs && InLock(states[k].procs[q])
    && acts[c].proc == q && acts[c].event == CreateWins && states[c].next == states[k].procs[q].inode
  }

  ghost predicate Overlap(states: seq<State>, acts: seq<Act>, k: nat)
    requires |states| == |acts| + 1 && k <= |acts|
  {
    exists p, j: nat, q, c: nat :: j < c && LostFile(states, acts, k, p, j) && CreatedFile(states, acts, k, q, c)
  }

  /** Whoever is in the lock has created its file. */
  lemma {:induction false} InLockCreated(states: seq<State>, acts: seq<Act>, k: nat, q: nat) returns (c: nat)
    requires Run(states, acts) && k <= |acts| && q in states[k].procs && InLock(states[k].procs[q])
    ensures CreatedFile(states, acts, k, q, c)
    decreases k
  {
    if k == 0 {
      assert false;
    } else {
      assert StepAt(states, acts, k - 1);
      if acts[k - 1].proc == q && acts[k - 1].event == CreateWins {
        c := k - 1;
      } else {
        c := InLockCreated(states, acts, k - 1, q);
      }
    }
  }

  /** A file that is gone was removed by some step in between. */
  lemma {:induction false} TakenBetween(states: seq<State>, acts: seq<Act>, from: nat, k: nat, inode: nat) returns (j: nat)
    requires Run(states, acts) && from < k <= |acts| && states[from].path == Some(inode) && states[k].path != Some(inode)
    ensures from <= j < k && TakesAway(acts[j].event) && states[j].path == Some(inode)
    decreases k
  {
    assert StepAt(states, acts, k - 1);
    if states[k - 1].path == Some(inode) {
      j := k - 1;
    } else {
      j := TakenBetween(states, acts, from, k - 1, inode);
    }
  }

  /** The earlier of two files in the lock was removed before the later one was created. */
  lemma EarlierWasRemoved(states: seq<State>, acts: seq<Act>, k: nat, p: nat, q: nat)
    requires Run(states, acts) && k <= |acts| && p in states[k].procs && q in states[k].procs
    requires InLock(states[k].procs[p]) && InLock(states[k].procs[q]) && states[k].procs[p].inode < states[k].procs[q].inode
    ensures Overlap(states, acts, k)
  {
    var a := InLockCreated(states, acts, k, p);
    var c := InLockCreated(states, acts, k, q);
    assert StepAt(states, acts, a) && StepAt(states, acts, c);
    if c <= a { NextGrows(states, acts, c, a); }
    assert states[a + 1].path == Some(states[k].procs[p].inode) && states[c].path == None;
    var j := TakenBetween(states, acts, a + 1, c, states[k].procs[p].inode);
    assert LostFile(states, acts, k, p, j) && CreatedFile(states, acts, k, q, c);
  }

  /** Exactly when mutual exclusion fails, with force or without: two processes are in the lock iff some
      step has removed the file of one that still is, and another has created its own since. */
  lemma SharedIff(states: seq<State>, acts: seq<Act>, k: nat)
    requires Run(states, acts) && k <= |acts|
    ensures Shared(states[k]) <==> Overlap(states, acts, k)
  {
    if Shared(states[k]) {
      var p, q :| p in states[k].procs && q in states[k].procs && p != q && InLock(states[k].procs[p]) && InLock(states[k].procs[q]);
      InvAlways(states, acts, k);
      if states[k].procs[p].inode < states[k].procs[q].inode {
        EarlierWasRemoved(states, acts, k, p, q);
      } else {
        EarlierWasRemoved(states, acts, k, q, p);
      }
    }
    if Overlap(states, acts, k) {
      var p, j: nat, q, c: nat :| j < c && LostFile(states, acts, k, p, j) && CreatedFile(states, acts, k, q, c);
      InvAlways(states, acts, j);
      NextGrows(states, acts, j, c);
      assert states[k].procs[p].inode < states[k].procs[q].inode;
    }
  }

  /** Two forced acquires that inspect the same stale file end up in the lock together. */
  lemma ForcedAcquiresMayShare()
    ensures exists states, acts :: Run(states, acts) && Shared(states[|acts|])
  {
    var states, acts := BothInspected();
    hide Run;
    states, acts := Extend(states, acts, Act(1, true, RemoveOld));
    states, acts := Extend(states, acts, Act(1, true, CreateWins));
    states, acts := Extend(states, acts, Act(2, true, RemoveOld));
    states, acts := Extend(states, acts, Act(2, true, CreateWins));
    var procs := states[|acts|].procs;
    assert procs[1] == Created(1) && procs[2] == Created(2);
  }

  /** Two processes have lost their creates to a stale file and inspected it. */
  lemma BothInspected() returns (states: seq<State>, acts: seq<Act>)
    ensures Run(states, acts) && |states| == |acts| + 1
    ensures states[|acts|] == State(Some(0), {}, 1, map[1 := Removing(0), 2 := Removing(0)], map[1 := 1, 2 := 1])
  {
    states, acts := [State(Some(0), {}, 1, map[1 := Trying(0), 2 := Trying(0)], map[])], [];
    assert Run(states, acts);
    hide Run;
    states, acts := Extend(states, acts, Act(1, true, CreateLoses));
    states, acts := Extend(states, acts, Act(1, true, InspectHeld));
    states, acts := Extend(states, acts, Act(2, true, CreateLoses));
    states, acts := Extend(states, acts, Act(2, true, InspectHeld));
  }

  /** An acquire makes at most two creates in every run. */
  lemma AtMostTwoCreates(states: seq<State>, acts: seq<Act>, k: nat, p: nat)
    requires Run(states, acts) && k <= |acts|
    ensures CreatesOf(states[k], p) <= 2
  {
    InvAlways(states, acts, k);
  }

  /** Steps a process can still take. */
  function Rank(ph: Phase): int {
    match ph
    case Trying(a) => 11 - 3 * a
    case Inspecting(a) => 10 - 3 * a
    case Removing(a) => 9 - 3 * a
    case Created(_) => 4
    case Holding(_) => 3
    case ReleaseRead(_) => 2
    case ReleaseRemove(_) => 1
    case Released => 0
    case Failed => 0
  }

  /** Every step of a process brings it nearer its end, and no step moves another process: an acquire
      always ends, whatever the others do. */
  lemma EveryStepEnds(states: seq<State>, acts: seq<Act>, k: nat, q: nat)
    requires Run(states, acts) && k < |acts| && q in states[k].procs
    ensures q in states[k + 1].procs
    ensures if q == acts[k].proc then 0 <= Rank(states[k + 1].procs[q]) < Rank(states[k].procs[q])
            else states[k + 1].procs[q] == states[k].procs[q]
  {
    InvAlways(states, acts, k);
    InvAlways(states, acts, k + 1);
    assert StepAt(states, acts, k);
  }

  predicate Ended(ph: Phase) { ph == Released || ph == Failed }

  /** Whether a process is removing an old file, which only a forced acquire does. */
  predicate Forced(ph: Phase) { ph.Removing? }

  lemma {:induction false} RemovingIsForced(states: seq<State>, acts: seq<Act>, k: nat, p: nat)
    requires Run(states, acts) && k <= |acts| && p in states[k].procs && Forced(states[k].procs[p])
    ensures exists i :: 0 <= i < k && acts[i].proc == p && acts[i].force
    decreases k
  {
    if k > 0 {
      assert StepAt(states, acts, k - 1);
      assert p in states[k - 1].procs;
      if acts[k - 1].proc != p {
        assert states[k - 1].procs[p] == states[k].procs[p];
        RemovingIsForced(states, acts, k - 1, p);
      }
    }
  }

  /** A process that has not ended can always take a step, whatever the others do: an acquire that finds
      the lock held does not wait. */
  lemma NeverStuck(states: seq<State>, acts: seq<Act>, k: nat, p: nat, force: bool) returns (e: Event)
    requires Run(states, acts) && k <= |acts| && p in states[k].procs && !Ended(states[k].procs[p])
    requires forall i :: 0 <= i < k && acts[i].proc == p ==> acts[i].force == force
    ensures Enabled(states[k], p, force, e)
    ensures e !in {CreateError, WriteError, InspectError, RemoveOldError, ReadError, RemoveMineError}
  {
    var s := states[k];
    match s.procs[p] {
      case Trying(_) => e := if s.path == None then CreateWins else CreateLoses;
      case Inspecting(_) => e := if s.path == None then InspectGone else InspectHeld;
      case Removing(_) =>
        RemovingIsForced(states, acts, k, p);
        e := RemoveOld;
      case Created(_) => e := WriteBody;
      case Holding(_) => e := StartRelease;
      case ReleaseRead(i) =>
        e := if s.path == None then ReadGone else if s.path == Some(i) && i in s.written then ReadMine else ReadForeign;
      case ReleaseRemove(_) => e := RemoveMine;
    }
  }
}
