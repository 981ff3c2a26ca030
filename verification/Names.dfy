/**
 Names and checksums the hook engine derives: Job names that must stay within one DNS label, and
 the checksum that decides whether a mutable hook runs again.
 Strings are sequences of bytes here, as `len` and slicing in Go are.
 */
module Names {

  predicate IsHex(c: char) { '0' <= c <= '9' || 'a' <= c <= 'f' }

  predicate AllHex(s: string) { forall i :: 0 <= i < |s| ==> IsHex(s[i]) }

  /** SHA-256 printed as lower-case hex: any function with 64 such characters of output. */
  type Digest = f: string -> string | forall s :: |f(s)| == 64 && AllHex(f(s)) witness (s => ZEROES)

  const ZEROES: string := seq(64, i => '0')

  const MAX_LABEL := 63     // section 2.3.4 of RFC 1035
  const SEPARATOR := "-rh-"

  // ---------------------------------------------------------------- Job names

  function TrimRightDashes(s: string): (r: string)
    ensures r <= s
    ensures r != "" ==> r[|r| - 1] != '-'
    ensures forall i :: |r| <= i < |s| ==> s[i] == '-'
  {
    if s != "" && s[|s| - 1] == '-' then TrimRightDashes(s[..|s| - 1]) else s
  }

  function FullName(plan: string, hook: string): string { plan + SEPARATOR + hook }

  /** The piece of a plan or hook name that fits its half of the 54 characters before the hash. */
  function Shortened(part: string): (r: string)
    ensures |r| <= 25 && r <= part
    ensures |part| <= 25 ==> r == part
    ensures |part| > 25 ==> (r != "" ==> r[|r| - 1] != '-') && forall i :: |r| <= i < 25 ==> part[i] == '-'
  {
    if |part| > 25 then TrimRightDashes(part[..25]) else part
  }

  function HookJobName(sha: Digest, plan: string, hook: string): string {
    var full := FullName(plan, hook);
    if |full| <= MAX_LABEL then full
    else Shortened(plan) + SEPARATOR + Shortened(hook) + "-" + sha(full)[..8]
  }

  function PerNodeJobName(sha: Digest, base: string, node: string): string {
    var hash := sha(node)[..6];
    var full := base + "-" + hash;
    if |full| <= MAX_LABEL then full
    else TrimRightDashes(base[..MAX_LABEL - 7]) + "-" + hash
  }

  /** What the names of a hook's Jobs on all nodes begin with. */
  function NodeBase(base: string): (r: string)
    ensures |r| <= 56 && r <= base
    ensures |base| <= 56 ==> r == base
    ensures |base| > 56 ==> (r != "" ==> r[|r| - 1] != '-') && forall i :: |r| <= i < 56 ==> base[i] == '-'
  {
    if |base| + 7 <= MAX_LABEL then base else TrimRightDashes(base[..MAX_LABEL - 7])
  }

  /** The six hash characters that tell nodes apart in the names of Jobs. */
  function NodeHash(sha: Digest, node: string): string { sha(node)[..6] }

  lemma NodeNameParts(sha: Digest, base: string, node: string)
    ensures PerNodeJobName(sha, base, node) == NodeBase(base) + "-" + NodeHash(sha, node)
  {
  }

  /** Two names on nodes are the same exactly when both their parts are. */
  lemma NodeNamesMeetIff(sha: Digest, b1: string, n1: string, b2: string, n2: string)
    ensures PerNodeJobName(sha, b1, n1) == PerNodeJobName(sha, b2, n2)
       <==> NodeBase(b1) == NodeBase(b2) && NodeHash(sha, n1) == NodeHash(sha, n2)
  {
    NodeNameParts(sha, b1, n1);
    NodeNameParts(sha, b2, n2);
    var x, y := PerNodeJobName(sha, b1, n1), PerNodeJobName(sha, b2, n2);
    assert x[|x| - 6..] == NodeHash(sha, n1) && y[|y| - 6..] == NodeHash(sha, n2);
    assert x[..|x| - 7] == NodeBase(b1) && y[..|y| - 7] == NodeBase(b2);
  }

  /** A hook Job and each of its per-node Jobs are named within one DNS label, however long the inputs. */
  lemma JobNamesFitALabel(sha: Digest, plan: string, hook: string, node: string)
    ensures |HookJobName(sha, plan, hook)| <= MAX_LABEL
    ensures |PerNodeJobName(sha, HookJobName(sha, plan, hook), node)| <= MAX_LABEL
  {
  }

  // Section 2.1 of RFC 1123: letters, digits and dashes, with no dash at either end.

  predicate IsLabelChar(c: char) { 'a' <= c <= 'z' || '0' <= c <= '9' || c == '-' }

  /** A name as Kubernetes accepts it for an object, but for its length. */
  predicate IsWord(s: string) {
    s != "" && s[0] != '-' && s[|s| - 1] != '-' && forall i :: 0 <= i < |s| ==> IsLabelChar(s[i])
  }

  predicate IsLabel(s: string) { IsWord(s) && |s| <= 63 }

  /** What is left of a word is one, and so are words joined by characters of labels. */
  lemma WordsJoin(a: string, mid: string, b: string)
    requires IsWord(a) && IsWord(b) && forall i :: 0 <= i < |mid| ==> IsLabelChar(mid[i])
    ensures IsWord(a + mid + b)
  {
    var s := a + mid + b;
    assert s[0] == a[0] && s[|s| - 1] == b[|b| - 1];
    forall i | 0 <= i < |s| ensures IsLabelChar(s[i]) {
      assert s[i] == if i < |a| then a[i] else if i < |a| + |mid| then mid[i - |a|] else b[i - |a| - |mid|];
    }
  }

  /** What the operator keeps of a name: all of it, or the first `n` characters without the dashes they end in. */
  predicate IsLeftOf(part: string, n: nat, r: string) {
    && r <= part && (|part| <= n ==> r == part)
    && (|part| > n ==> |r| <= n && (r != "" ==> r[|r| - 1] != '-') && forall i :: |r| <= i < n ==> part[i] == '-')
  }

  lemma LeftIsWord(part: string, n: nat, r: string)
    requires IsWord(part) && IsLeftOf(part, n, r) && n > 0
    ensures IsWord(r)
  {
    assert r != "" && r[0] == part[0];
  }

  lemma HashIsWord(sha: Digest, s: string, n: nat)
    requires 0 < n <= 64
    ensures IsWord(sha(s)[..n])
  {
    assert forall i :: 0 <= i < 64 ==> IsHex(sha(s)[i]);
  }

  /** Names that fit are whole. */
  lemma ShortNamesAreWhole(sha: Digest, plan: string, hook: string, base: string, node: string)
    ensures |plan| + |hook| + 4 <= 63 ==> HookJobName(sha, plan, hook) == plan + "-rh-" + hook
    ensures |base| + 7 <= 63 ==> PerNodeJobName(sha, base, node) == base + "-" + sha(node)[..6]
  {
  }

  /** A truncated name shows what is left of the plan, then what is left of the hook, then the hash of both. */
  lemma TruncatedNameParts(sha: Digest, plan: string, hook: string) returns (p: string, h: string)
    requires |plan| + |hook| + 4 > 63
    ensures IsLeftOf(plan, 25, p) && IsLeftOf(hook, 25, h)
    ensures HookJobName(sha, plan, hook) == p + "-rh-" + h + "-" + sha(plan + "-rh-" + hook)[..8]
  {
    p, h := Shortened(plan), Shortened(hook);
  }

  /** From a plan and a hook with proper names every Job gets a proper name, however long they are. */
  lemma JobNamesAreLabels(sha: Digest, plan: string, hook: string, node: string)
    requires IsWord(plan) && IsWord(hook)
    ensures IsLabel(HookJobName(sha, plan, hook))
    ensures IsLabel(PerNodeJobName(sha, HookJobName(sha, plan, hook), node))
  {
    HookNameIsWord(sha, plan, hook);
    NodeNameIsWord(sha, HookJobName(sha, plan, hook), node);
    JobNamesFitALabel(sha, plan, hook, node);
  }

  lemma HookNameIsWord(sha: Digest, plan: string, hook: string)
    requires IsWord(plan) && IsWord(hook)
    ensures IsWord(HookJobName(sha, plan, hook))
  {
    if |plan| + |hook| + 4 <= 63 {
      WordsJoin(plan, "-rh-", hook);
    } else {
      var p, h := TruncatedNameParts(sha, plan, hook);
      LeftIsWord(plan, 25, p);
      LeftIsWord(hook, 25, h);
      HashIsWord(sha, plan + "-rh-" + hook, 8);
      WordsJoin(p, "-rh-", h);
      WordsJoin(p + "-rh-" + h, "-", sha(plan + "-rh-" + hook)[..8]);
    }
  }

  lemma NodeNameIsWord(sha: Digest, name: string, node: string)
    requires IsWord(name)
    ensures IsWord(PerNodeJobName(sha, name, node))
  {
    LeftIsWord(name, 56, NodeBase(name));
    HashIsWord(sha, node, 6);
    NodeNameParts(sha, name, node);
    WordsJoin(NodeBase(name), "-", NodeHash(sha, node));
  }

  /** Over nodes, the per-node name is decided by, and decides, the six hash characters. */
  lemma PerNodeNamesDifferByHash(sha: Digest, base: string, n1: string, n2: string)
    ensures PerNodeJobName(sha, base, n1) == PerNodeJobName(sha, base, n2) <==> sha(n1)[..6] == sha(n2)[..6]
  {
    var a, b := PerNodeJobName(sha, base, n1), PerNodeJobName(sha, base, n2);
    assert a[|a| - 6..] == sha(n1)[..6] && b[|b| - 6..] == sha(n2)[..6];
  }

  /** Some hook of one plan and some hook of the other have the same full name. */
  ghost predicate FullNamesMeet(p1: string, p2: string) {
    exists h1: string, h2: string :: FullName(p1, h1) == FullName(p2, h2)
  }

  /** What a user can check on two plan names alone. */
  predicate Swallows(p1: string, p2: string) {
    p2 == p1 + "-rh" || p1 + SEPARATOR <= p2
  }

  lemma SwallowedNamesMeet(p1: string, p2: string) returns (h1: string, h2: string)
    requires Swallows(p1, p2)
    ensures FullName(p1, h1) == FullName(p2, h2)
  {
    h2 := "x";
    if p2 == p1 + "-rh" {
      h1 := "rh-" + h2;
      assert FullName(p1, h1) == p1 + "-rh-rh-x" == FullName(p2, h2);
    } else {
      h1 := p2[|p1| + 4..] + SEPARATOR + h2;
      assert p2 == (p1 + SEPARATOR) + p2[|p1| + 4..];
      assert FullName(p1, h1) == FullName(p2, h2);
    }
  }

  lemma MeetingNamesSwallow(p1: string, h1: string, p2: string, h2: string)
    requires |p1| <= |p2| && FullName(p1, h1) == FullName(p2, h2)
    ensures p1 == p2 || Swallows(p1, p2)
  {
    var f := FullName(p1, h1);
    assert p1 == f[..|p1|] && p2 == f[..|p2|];
    if |p1| < |p2| {
      assert f[|p1|] == '-' && f[|p1| + 1] == 'r' && f[|p1| + 2] == 'h' && f[|p1| + 3] == '-';
      assert f[|p2|] == '-';
      if |p2| == |p1| + 3 {
        assert p2 == p1 + "-rh";
      } else {
        assert p1 + SEPARATOR == f[..|p1| + 4] == p2[..|p1| + 4];
      }
    }
  }

  /**
   Two distinct plans can give two hooks the same untruncated Job name exactly when one plan name
   is the other followed by "-rh", or begins with the other followed by "-rh-".
   */
  lemma PlansCanClashIff(p1: string, p2: string)
    requires p1 != p2
    ensures FullNamesMeet(p1, p2) <==> Swallows(p1, p2) || Swallows(p2, p1)
  {
    if FullNamesMeet(p1, p2) {
      var h1: string, h2: string :| FullName(p1, h1) == FullName(p2, h2);
      if |p1| <= |p2| {
        MeetingNamesSwallow(p1, h1, p2, h2);
      } else {
        MeetingNamesSwallow(p2, h2, p1, h1);
      }
    }
    if Swallows(p1, p2) {
      var h1, h2 := SwallowedNamesMeet(p1, p2);
    }
    if Swallows(p2, p1) {
      var h2, h1 := SwallowedNamesMeet(p2, p1);
      assert FullName(p1, h1) == FullName(p2, h2);
    }
  }

  predicate OccursAt(s: string, t: string, i: nat) { i + |t| <= |s| && s[i..i + |t|] == t }

  predicate Contains(s: string, t: string) {
    exists i :: 0 <= i <= |s| && OccursAt(s, t, i)
  }

  predicate EndsWith(s: string, t: string) { OccursAt(s, t, if |s| >= |t| then |s| - |t| else |s| + 1) }

  lemma SwallowersAreMarked(p1: string, p2: string)
    requires Swallows(p1, p2)
    ensures Contains(p2, SEPARATOR) || EndsWith(p2, "-rh")
  {
    if p1 + SEPARATOR <= p2 {
      assert OccursAt(p2, SEPARATOR, |p1|);
    }
  }

  /** No plan name contains "-rh-" or ends in "-rh": untruncated Job names determine plan and hook. */
  lemma UntruncatedNamesAreInjective(sha: Digest, p1: string, h1: string, p2: string, h2: string)
    requires |FullName(p1, h1)| <= MAX_LABEL && |FullName(p2, h2)| <= MAX_LABEL
    requires !Contains(p1, SEPARATOR) && !Contains(p2, SEPARATOR)
    requires !EndsWith(p1, "-rh") && !EndsWith(p2, "-rh")
    requires HookJobName(sha, p1, h1) == HookJobName(sha, p2, h2)
    ensures p1 == p2 && h1 == h2
  {
    if Swallows(p1, p2) { SwallowersAreMarked(p1, p2); }
    if Swallows(p2, p1) { SwallowersAreMarked(p2, p1); }
    if |p1| <= |p2| { MeetingNamesSwallow(p1, h1, p2, h2); } else { MeetingNamesSwallow(p2, h2, p1, h1); }
    assert h1 == FullName(p1, h1)[|p1| + 4..] && h2 == FullName(p2, h2)[|p2| + 4..];
  }

  /** Within one plan, truncated names differ when the eight hash characters of the full names do. */
  lemma TruncatedNamesDifferByHash(sha: Digest, plan: string, h1: string, h2: string)
    requires |FullName(plan, h1)| > MAX_LABEL && |FullName(plan, h2)| > MAX_LABEL
    requires sha(FullName(plan, h1))[..8] != sha(FullName(plan, h2))[..8]
    ensures HookJobName(sha, plan, h1) != HookJobName(sha, plan, h2)
  {
    var a, b := HookJobName(sha, plan, h1), HookJobName(sha, plan, h2);
    assert a[|a| - 8..] == sha(FullName(plan, h1))[..8] && b[|b| - 8..] == sha(FullName(plan, h2))[..8];
  }

  // ---------------------------------------------------------------- checksums

  const NUL := 0 as char

  /** The bytes the hash is fed: every string followed by a NUL. */
  function Stream(parts: seq<string>): string {
    if parts == [] then "" else parts[0] + [NUL] + Stream(parts[1..])
  }

  lemma {:induction false} StreamSnoc(parts: seq<string>, last: string)
    ensures Stream(parts + [last]) == Stream(parts) + last + [NUL]
  {
    if parts == [] {
      assert Stream([last]) == last + [NUL] + Stream([]);
    } else {
      assert (parts + [last])[1..] == parts[1..] + [last];
      StreamSnoc(parts[1..], last);
    }
  }

  lemma {:induction false} StreamConcat(a: seq<string>, b: seq<string>)
    ensures Stream(a + b) == Stream(a) + Stream(b)
  {
    if a == [] {
      assert a + b == b;
    } else {
      assert (a + b)[1..] == a[1..] + b;
      StreamConcat(a[1..], b);
    }
  }

  /** The bytes written after the first `n` strings. */
  function Written(parts: seq<string>, n: nat): string
    requires n <= |parts|
  {
    if n == 0 then "" else Written(parts, n - 1) + parts[n - 1] + [NUL]
  }

  lemma {:induction false} WrittenIsStream(parts: seq<string>, n: nat)
    requires n <= |parts|
    ensures Written(parts, n) == Stream(parts[..n])
  {
    if n > 0 {
      WrittenIsStream(parts, n - 1);
      StreamSnoc(parts[..n - 1], parts[n - 1]);
      assert parts[..n] == parts[..n - 1] + [parts[n - 1]];
    }
  }

  lemma Associative(a: string, b: string, c: string)
    ensures (a + b) + c == a + (b + c)
  {
  }

  lemma BothWritten(command: seq<string>, args: seq<string>)
    ensures Written(command, |command|) + Written(args, |args|) == Stream(command + args)
  {
    WrittenIsStream(command, |command|);
    WrittenIsStream(args, |args|);
    assert command[..|command|] == command && args[..|args|] == args;
    StreamConcat(command, args);
  }

  function Checksum(sha: Digest, command: seq<string>, args: seq<string>): string {
    sha(Stream(command + args))[..8]
  }

  /** The hash writer, fed the command and then the arguments. */
  method HookChecksum(sha: Digest, command: seq<string>, args: seq<string>) returns (sum: string)
    ensures sum == Checksum(sha, command, args)
  {
    var written := "";
    for i := 0 to |command|
      invariant written == Written(command, i)
    {
      written := written + command[i];
      written := written + [NUL];
    }
    ghost var before := written;
    for i := 0 to |args|
      invariant written == before + Written(args, i)
    {
      Associative(before, Written(args, i), args[i]);
      written := written + args[i];
      Associative(before, Written(args, i) + args[i], [NUL]);
      written := written + [NUL];
    }
    BothWritten(command, args);
    sum := sha(written)[..8];
  }

  /** Reads a byte stream back: everything up to each NUL is one string. */
  function Unstream(s: string, current: string): seq<string> {
    if s == "" then []
    else if s[0] == NUL then [current] + Unstream(s[1..], "")
    else Unstream(s[1..], current + [s[0]])
  }

  lemma {:induction false} UnstreamPart(part: string, rest: string, current: string)
    requires NUL !in part
    ensures Unstream(part + [NUL] + rest, current) == [current + part] + Unstream(rest, "")
  {
    if part == "" {
      assert (part + [NUL] + rest)[1..] == rest;
      assert current + part == current;
    } else {
      assert (part + [NUL] + rest)[1..] == part[1..] + [NUL] + rest;
      UnstreamPart(part[1..], rest, current + [part[0]]);
      assert current + [part[0]] + part[1..] == current + part;
    }
  }

  predicate NulFree(parts: seq<string>) {
    forall i :: 0 <= i < |parts| ==> NUL !in parts[i]
  }

  /** The hashed bytes decode to exactly the strings that went in. */
  lemma {:induction false} StreamRoundTrip(parts: seq<string>)
    requires NulFree(parts)
    ensures Unstream(Stream(parts), "") == parts
  {
    if parts == [] {
      assert Stream(parts) == "";
    } else {
      UnstreamPart(parts[0], Stream(parts[1..]), "");
      StreamRoundTrip(parts[1..]);
      assert "" + parts[0] == parts[0];
      assert parts == [parts[0]] + parts[1..];
    }
  }

  /** The digest tells `a` and `b` apart by its first eight characters whenever they differ. */
  predicate Separates(sha: Digest, a: string, b: string) {
    a != b ==> sha(a)[..8] != sha(b)[..8]
  }

  /**
   Without a collision, two NUL-free commands with arguments have the same checksum exactly when
   command and arguments read the same end to end: the border between them is not hashed.
   */
  lemma ChecksumsAgreeIff(sha: Digest, c1: seq<string>, a1: seq<string>, c2: seq<string>, a2: seq<string>)
    requires NulFree(c1 + a1) && NulFree(c2 + a2)
    requires Separates(sha, Stream(c1 + a1), Stream(c2 + a2))
    ensures Checksum(sha, c1, a1) == Checksum(sha, c2, a2) <==> c1 + a1 == c2 + a2
  {
    StreamRoundTrip(c1 + a1);
    StreamRoundTrip(c2 + a2);
  }

  /** A word moved from the arguments to the command, and a NUL within a word, go unnoticed by every digest. */
  lemma ChecksumBlindSpots(sha: Digest)
    ensures Checksum(sha, ["sh"], ["-c"]) == Checksum(sha, ["sh", "-c"], [])
    ensures Checksum(sha, ["a", "b"], []) == Checksum(sha, ["a" + [NUL] + "b"], [])
  {
    assert ["sh"] + ["-c"] == ["sh", "-c"] + [];
    var x, y := ["a", "b"] + [], ["a" + [NUL] + "b"] + [];
    assert Stream(x[1..]) == "b" + [NUL] + Stream(x[2..]);
    assert Stream(x) == "a" + [NUL] + ("b" + [NUL]);
    assert Stream(y) == ("a" + [NUL] + "b") + [NUL] + Stream(y[1..]);
    assert Stream(x) == Stream(y);
  }

  // ---------------------------------------------------------------- both together

  /** What the hook engine needs of all this; its properties hold whatever these functions are. */
  datatype Scheme = Scheme(
    jobName: (string, string) -> string,                    // of a plan and a hook
    nodeName: (string, string) -> string,                   // of a Job name and a node
    checksum: (seq<string>, seq<string>) -> string)         // of a command and its arguments

  /** Plan before hook, Job before node, command before arguments. */
  lemma SchemeNamesJobs(sha: Digest, plan: string, hook: string, base: string, node: string,
                        command: seq<string>, args: seq<string>)
    ensures SchemeOf(sha).jobName(plan, hook) == HookJobName(sha, plan, hook)
    ensures SchemeOf(sha).nodeName(base, node) == PerNodeJobName(sha, base, node)
    ensures SchemeOf(sha).checksum(command, args) == Checksum(sha, command, args)
  {
  }

  /** The names and checksums the operator uses. */
  function SchemeOf(sha: Digest): Scheme {
    Scheme((plan, hook) => HookJobName(sha, plan, hook),
           (base, node) => PerNodeJobName(sha, base, node),
           (command, args) => Checksum(sha, command, args))
  }
}
