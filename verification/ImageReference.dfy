/** builder.go: how registry, project, service and commit become an image reference. */
module ImageReference {
  import opened Text
  import opened ImageComponent

  datatype RegistryConfig = RegistryConfig(host: string, username: string, password: string, repositoryPrefix: string)

  datatype Reference = Reference(text: string) | MissingHost | MissingCommit

  function TrimSlash(s: string): string {
    if s != "" && s[|s| - 1] == '/' then s[..|s| - 1] else s
  }

  function NormalizeHost(host: string, lower: Lower): string {
    TrimSlash(ToLower(TrimSpace(host), lower))
  }

  /** A commit is given by its bytes, each as the character of its value: the cut counts bytes, and may fall
      inside the encoding of a character. */
  function ShortCommitSha(commit: string): string {
    var trimmed := TrimBytes(commit);
    if |trimmed| > 12 then trimmed[..12] else trimmed
  }

  /** What is left of a host: its characters between white space, each lowered, without one slash at the end. */
  lemma HostExactly(host: string, lower: Lower)
    ensures
      var t, n := TrimSpace(host), NormalizeHost(host, lower);
      && |n| <= |t| <= |n| + 1 && (forall k :: 0 <= k < |n| ==> n[k] == lower(t[k]))
      && (|n| < |t| <==> t != "" && lower(t[|t| - 1]) == '/')
  {
    hide TrimSpace;
  }

  /** The two agree as far as n characters, in what they hold and in where they end. */
  predicate AgreeUpTo(a: string, b: string, n: nat) {
    && (|a| == |b| || (|a| >= n && |b| >= n))
    && forall k :: 0 <= k < n && k < |a| && k < |b| ==> a[k] == b[k]
  }

  /** A short commit is the first twelve bytes of the trimmed one, or all of it. */
  lemma ShortShaIsPrefix(commit: string)
    ensures ShortCommitSha(commit) <= TrimBytes(commit)
    ensures |ShortCommitSha(commit)| == if |TrimBytes(commit)| < 12 then |TrimBytes(commit)| else 12
  {
    hide TrimBytes;
  }

  lemma ShortShasAgree(c: string, d: string)
    ensures ShortCommitSha(c) == ShortCommitSha(d) <==> AgreeUpTo(TrimBytes(c), TrimBytes(d), 12)
  {
    hide TrimBytes, ShortCommitSha;
    ShortShaIsPrefix(c);
    ShortShaIsPrefix(d);
    PrefixesAgree(TrimBytes(c), TrimBytes(d), ShortCommitSha(c), ShortCommitSha(d), 12);
  }

  lemma PrefixesAgree(a: string, b: string, p: string, q: string, n: nat)
    requires p <= a && |p| == (if |a| < n then |a| else n)
    requires q <= b && |q| == (if |b| < n then |b| else n)
    ensures p == q <==> AgreeUpTo(a, b, n)
  {
    if p == q {
      forall k | 0 <= k < n && k < |a| && k < |b|
        ensures a[k] == b[k]
      {
        assert p[k] == a[k] && q[k] == b[k];
      }
    }
    if AgreeUpTo(a, b, n) {
      assert forall k :: 0 <= k < |p| ==> p[k] == a[k] && q[k] == b[k];
    }
  }

  // ------------------------------------------------------------------ the repository prefix

  /** The components that parts leave, in order. */
  function Kept(parts: seq<string>, lower: Lower): (kept: seq<string>)
    ensures forall i :: 0 <= i < |kept| ==> Component(kept[i]) && '/' !in kept[i]
  {
    if parts == [] then []
    else
      var last := ComponentOr(parts[|parts| - 1], "", lower);
      ComponentHasNoSlash(parts[|parts| - 1], lower);
      Kept(parts[..|parts| - 1], lower) + (if last == "" then [] else [last])
  }

  lemma ComponentHasNoSlash(value: string, lower: Lower)
    ensures var s := ComponentOr(value, "", lower); s == "" || (Component(s) && '/' !in s && ':' !in s)
  {
    ResultsAreExactlyComponents(ComponentOr(value, "", lower), lower);
    ComponentAvoids(ComponentOr(value, "", lower));
  }

  lemma ComponentAvoids(s: string)
    ensures Component(s) ==> s != "" && '/' !in s && ':' !in s
  {
    ComponentShape(s);
  }

  function PrefixParts(prefix: string, lower: Lower): seq<string> {
    Kept(Split(prefix, '/'), lower)
  }

  lemma {:induction false} BlankIsSpaces(s: string)
    requires TrimSpace(s) == ""
    ensures forall c :: c in s ==> IsSpace(c)
  {
    TrimmedEnds(s);
    if s != "" && IsSpace(s[0]) {
      BlankIsSpaces(s[1..]);
      assert s == [s[0]] + s[1..];
    }
  }

  lemma BlankPrefixHasNoParts(prefix: string, lower: Lower)
    requires TrimSpace(prefix) == ""
    ensures PrefixParts(prefix, lower) == []
  {
    BlankIsSpaces(prefix);
    SplitWhole(prefix, '/');
    assert [prefix][..0] == [];
    assert Prepared(prefix, lower) == "";
  }

  method NormalizeRepositoryPrefix(prefix: string, lower: Lower) returns (r: string)
    ensures r == Join(PrefixParts(prefix, lower), '/')
  {
    if TrimSpace(prefix) == "" {
      BlankPrefixHasNoParts(prefix, lower);
      return "";
    }
    var parts := Split(prefix, '/');
    var normalized: seq<string> := [];
    for i := 0 to |parts|
      invariant normalized == Kept(parts[..i], lower)
    {
      assert parts[..i + 1][..i] == parts[..i];
      var part := SanitizeImageComponent(parts[i], "", lower);
      if part == "" {
        continue;
      }
      normalized := normalized + [part];
    }
    assert parts[..|parts|] == parts;
    r := Join(normalized, '/');
  }

  lemma {:induction false} ComponentsAreKept(parts: seq<string>, lower: Lower)
    requires forall i :: 0 <= i < |parts| ==> Component(parts[i])
    ensures Kept(parts, lower) == parts
  {
    hide Component, ComponentOr;
    if parts != [] {
      var last := parts[|parts| - 1];
      ComponentsAreKept(parts[..|parts| - 1], lower);
      ComponentIsItself(last, lower);
      assert parts == parts[..|parts| - 1] + [last];
    }
  }

  lemma ComponentIsItself(s: string, lower: Lower)
    requires Component(s)
    ensures s != "" && ComponentOr(s, "", lower) == s
  {
    ResultsAreExactlyComponents(s, lower);
  }

  lemma PartsOfJoined(parts: seq<string>, lower: Lower)
    requires forall i :: 0 <= i < |parts| ==> Component(parts[i]) && '/' !in parts[i]
    ensures PrefixParts(Join(parts, '/'), lower) == parts
  {
    if parts == [] {
      BlankPrefixHasNoParts("", lower);
    } else {
      SplitJoin(parts, '/');
      ComponentsAreKept(parts, lower);
    }
  }

  lemma {:induction false} KeptConcat(a: seq<string>, b: seq<string>, lower: Lower)
    ensures Kept(a + b, lower) == Kept(a, lower) + Kept(b, lower)
  {
    hide ComponentOr;
    if b == [] {
      assert a + b == a;
    } else {
      var n := |b| - 1;
      KeptConcat(a, b[..n], lower);
      assert (a + b)[..|a + b| - 1] == a + b[..n];
    }
  }

  /** Part by part: one whose trimmed and lowered text has alphanumeric runs becomes these runs, joined as in a
      component, in its place; one without any disappears. */
  lemma PartsBecomeComponents(
    before: seq<string>, part: string, after: seq<string>, lower: Lower, lead: string, pieces: seq<Piece>)
    requires NoneAlphanumeric(lead) && Segmented(pieces)
    requires |lead + Laid(pieces)| == |TrimSpace(part)|
    requires forall k :: 0 <= k < |TrimSpace(part)| ==> (lead + Laid(pieces))[k] == lower(TrimSpace(part)[k])
    ensures Kept([], lower) == []
    ensures Kept(before + [part] + after, lower)
      == Kept(before, lower) + (if pieces == [] then [] else [Joined(pieces)]) + Kept(after, lower)
  {
    ComponentOfSegments(part, "", lower, lead, pieces);
    hide ComponentOr, TrimSpace, Laid, Segmented, NoneAlphanumeric;
    JoinedIsEmpty(pieces);
    assert [part][..0] == [];
    KeptConcat(before, [part], lower);
    KeptConcat(before + [part], after, lower);
  }

  lemma JoinedIsEmpty(pieces: seq<Piece>)
    requires Segmented(pieces)
    ensures Joined(pieces) == "" <==> pieces == []
  {
  }

  predicate AllComponents(parts: seq<string>) {
    forall i :: 0 <= i < |parts| ==> Component(parts[i])
  }

  /** A prefix is left alone exactly when it is empty or components joined by single slashes. */
  lemma PrefixFixedExactly(prefix: string, lower: Lower)
    ensures Join(PrefixParts(prefix, lower), '/') == prefix <==> prefix == "" || AllComponents(Split(prefix, '/'))
  {
    if prefix == "" {
      BlankPrefixHasNoParts(prefix, lower);
    } else {
      var kept := PrefixParts(prefix, lower);
      if Join(kept, '/') == prefix {
        SplitJoin(kept, '/');
      }
      if AllComponents(Split(prefix, '/')) {
        ComponentsAreKept(Split(prefix, '/'), lower);
        JoinSplit(prefix, '/');
      }
    }
  }

  /** Every normalised prefix is such a one, so normalising again changes nothing. */
  lemma PrefixIsIdempotent(prefix: string, lower: Lower)
    ensures var once := Join(PrefixParts(prefix, lower), '/');
      && Join(PrefixParts(once, lower), '/') == once
      && (once == "" || AllComponents(Split(once, '/')))
  {
    PartsOfJoined(PrefixParts(prefix, lower), lower);
    PrefixFixedExactly(Join(PrefixParts(prefix, lower), '/'), lower);
  }

  /** Joining undoes splitting. */
  lemma {:induction false} JoinSplit(s: string, sep: char)
    ensures Join(Split(s, sep), sep) == s
  {
    if s != "" {
      JoinSplit(s[1..], sep);
      var parts, rest := Split(s, sep), Split(s[1..], sep);
      assert s == [s[0]] + s[1..];
      if s[0] == sep {
        assert parts[1..] == rest;
      } else {
        assert parts[1..] == rest[1..];
      }
    }
  }

  // ------------------------------------------------------------------ the reference

  function BuildImageReference(
    registry: RegistryConfig, project: string, service: string, commit: string, lower: Lower): (r: Reference)
  {
    var host := NormalizeHost(registry.host, lower);
    if host == "" then MissingHost
    else
      var tag := ShortCommitSha(commit);
      if tag == "" then MissingCommit
      else
        var prefix := Join(PrefixParts(registry.repositoryPrefix, lower), '/');
        var segments := [host] + (if prefix != "" then [prefix] else [])
          + [ComponentOr(project, "project", lower), ComponentOr(service, "service", lower)];
        Reference(Join(segments, '/') + ":" + tag)
  }

  /** The repository path as its components. */
  function PathParts(registry: RegistryConfig, project: string, service: string, lower: Lower): seq<string> {
    PrefixParts(registry.repositoryPrefix, lower)
    + [ComponentOr(project, "project", lower), ComponentOr(service, "service", lower)]
  }

  lemma {:induction false} JoinAppend(a: seq<string>, b: seq<string>, sep: char)
    requires a != [] && b != []
    ensures Join(a + b, sep) == Join(a, sep) + [sep] + Join(b, sep)
  {
    assert (a + b)[1..] == a[1..] + b;
    if |a| > 1 {
      JoinAppend(a[1..], b, sep);
    } else {
      assert a[1..] + b == b;
    }
  }

  lemma JoinOnlyEmpty(parts: seq<string>)
    requires forall i :: 0 <= i < |parts| ==> Component(parts[i])
    ensures Join(parts, '/') == "" <==> parts == []
  {
    if parts != [] {
      assert Component(parts[0]);
    }
  }

  lemma LayoutByParts(registry: RegistryConfig, project: string, service: string, commit: string, lower: Lower)
    ensures var r := BuildImageReference(registry, project, service, commit, lower);
      var host, tag := NormalizeHost(registry.host, lower), ShortCommitSha(commit);
      && (r.MissingHost? <==> host == "")
      && (r.MissingCommit? <==> host != "" && tag == "")
      && (r.Reference? ==>
            r.text == host + "/" + Join(PathParts(registry, project, service, lower), '/') + ":" + tag)
  {
    var parts := PrefixParts(registry.repositoryPrefix, lower);
    JoinOnlyEmpty(parts);
    hide NormalizeHost, ShortCommitSha, PrefixParts, ComponentOr, Join, Component;
    SegmentsJoined(NormalizeHost(registry.host, lower), parts,
      [ComponentOr(project, "project", lower), ComponentOr(service, "service", lower)]);
  }

  /** Where the pieces of a reference sit: the host, the kept parts of the prefix, project, service, and the first
      twelve bytes of the commit. */
  lemma ReferenceLayout(registry: RegistryConfig, project: string, service: string, commit: string, lower: Lower)
    ensures var r := BuildImageReference(registry, project, service, commit, lower);
      var host, sha := NormalizeHost(registry.host, lower), TrimBytes(commit);
      var tag := sha[..if |sha| < 12 then |sha| else 12];
      var path := PrefixParts(registry.repositoryPrefix, lower)
        + [ComponentOr(project, "project", lower), ComponentOr(service, "service", lower)];
      && (r.MissingHost? <==> host == "")
      && (r.MissingCommit? <==> host != "" && tag == "")
      && (r.Reference? ==> r.text == host + "/" + Join(path, '/') + ":" + tag)
  {
    hide BuildImageReference, NormalizeHost, ShortCommitSha, PrefixParts, ComponentOr, Join, TrimBytes;
    LayoutByParts(registry, project, service, commit, lower);
    ShortShaIsPrefix(commit);
  }

  lemma SegmentsJoined(host: string, parts: seq<string>, ends: seq<string>)
    requires ends != [] && (Join(parts, '/') == "" <==> parts == [])
    ensures var prefix := Join(parts, '/');
      Join([host] + (if prefix != "" then [prefix] else []) + ends, '/') == host + "/" + Join(parts + ends, '/')
  {
    hide Join;
    HostInFront(host, parts + ends);
    if parts == [] {
      assert parts + ends == ends;
      assert [host] + [] + ends == [host] + ends;
    } else {
      var prefix := Join(parts, '/');
      JoinAppend(parts, ends, '/');
      JoinAppend([host] + [prefix], ends, '/');
      HostInFront(host, [prefix]);
      OnlyPart(prefix);
      Regroup(host + "/", prefix, "/" + Join(ends, '/'));
      Regroup(prefix, "/", Join(ends, '/'));
      Regroup(host + "/" + prefix, "/", Join(ends, '/'));
    }
  }

  lemma HostInFront(host: string, parts: seq<string>)
    requires parts != []
    ensures Join([host] + parts, '/') == host + "/" + Join(parts, '/')
  {
    assert ([host] + parts)[1..] == parts;
  }

  lemma OnlyPart(part: string)
    ensures Join([part], '/') == part
  {
  }

  // ------------------------------------------------------------------ the OCI grammar

  /** A separator inside a component of <name>: one of . and _ and __, or any number of dashes. */
  predicate OciSeparator(s: string) {
    s == "." || s == "_" || s == "__" || (s != "" && forall i :: 0 <= i < |s| ==> s[i] == '-')
  }

  predicate OciComponent(s: string)
    decreases |s|
  {
    var n := Run(s);
    var m := n + Gap(s[n..]);
    n > 0 && (n == |s| || (OciSeparator(s[n..m]) && OciComponent(s[m..])))
  }

  /** <name> in section "Pulling manifests" of the OCI Distribution Specification v1.1. */
  predicate OciName(s: string) {
    forall i :: 0 <= i < |Split(s, '/')| ==> OciComponent(Split(s, '/')[i])
  }

  predicate TagCharacter(c: char) {
    'a' <= c <= 'z' || 'A' <= c <= 'Z' || '0' <= c <= '9' || c == '_'
  }

  /** <reference> as a tag, in the same section. */
  predicate OciTag(s: string) {
    && 1 <= |s| <= 128 && TagCharacter(s[0])
    && forall i :: 0 <= i < |s| ==> TagCharacter(s[i]) || s[i] == '.' || s[i] == '-'
  }

  lemma {:induction false} ComponentIsOci(s: string)
    requires Component(s)
    ensures OciComponent(s)
    decreases |s|
  {
    var n := Run(s);
    if n < |s| {
      ComponentIsOci(s[n + 1..]);
      ComponentStarts(s[n + 1..]);
      SplitAt(s, n);
      OciStep(s[..n], s[n], s[n + 1..]);
    }
  }

  lemma OciStep(run: string, mark: char, rest: string)
    requires run != "" && AllAlphanumeric(run) && IsMark(mark)
    requires rest != "" && IsAlphanumeric(rest[0]) && OciComponent(rest)
    ensures OciComponent(run + [mark] + rest)
  {
    var s, tail := run + [mark] + rest, [mark] + rest;
    Regroup(run, [mark], rest);
    RunOf(run, tail);
    GapOf([mark], rest);
    assert s[|run|..] == tail;
    assert s[|run|..|run| + 1] == [mark];
    assert s[|run| + 1..] == rest;
  }

  /** The path is grammatical, and splits back into its components, whatever the prefix, the project
      and the service are. */
  lemma PathIsGrammatical(registry: RegistryConfig, project: string, service: string, lower: Lower)
    ensures var parts := PathParts(registry, project, service, lower);
      OciName(Join(parts, '/')) && Split(Join(parts, '/'), '/') == parts
  {
    var parts := PathParts(registry, project, service, lower);
    EndsAreComponents(project, service, lower);
    hide Component, OciComponent, Join, ComponentOr;
    SplitJoin(parts, '/');
    forall i | 0 <= i < |parts| ensures OciComponent(parts[i]) {
      ComponentIsOci(parts[i]);
    }
  }

  /** The tag is grammatical when the commit is what git prints. */
  lemma TagIsGrammatical(commit: string)
    requires TrimBytes(commit) != "" && forall c :: c in TrimBytes(commit) ==> '0' <= c <= '9' || 'a' <= c <= 'f'
    ensures OciTag(ShortCommitSha(commit))
  {
    var sha := TrimBytes(commit);
    forall i | 0 <= i < |ShortCommitSha(commit)| ensures TagCharacter(ShortCommitSha(commit)[i]) {
      assert ShortCommitSha(commit)[i] == sha[i] && sha[i] in sha;
    }
  }

  lemma EndsAreComponents(project: string, service: string, lower: Lower)
    ensures forall s :: s in [ComponentOr(project, "project", lower), ComponentOr(service, "service", lower)] ==>
      Component(s) && '/' !in s && ':' !in s
  {
    DefaultsAreComponents();
    hide Component, ComponentOr;
    FallbackExactly(project, "project", lower);
    FallbackExactly(service, "service", lower);
    ComponentAvoids(ComponentOr(project, "project", lower));
    ComponentAvoids(ComponentOr(service, "service", lower));
  }

  lemma DefaultsAreComponents()
    ensures Component("project") && Component("service")
  {
    hide Component;
    WordIsComponent("project");
    WordIsComponent("service");
  }

  lemma WordIsComponent(s: string)
    requires s != "" && AllAlphanumeric(s)
    ensures Component(s)
  {
    RunOf(s, "");
    assert s + "" == s;
  }

  // ------------------------------------------------------------------ no two images share a reference

  /** For one registry configuration, a reference tells its sanitised project, its sanitised service and the first
      twelve bytes of its commit, whatever characters the host or the commit hold. */
  lemma ReferencesAgreeExactly(
    registry: RegistryConfig, p: string, s: string, c: string, q: string, t: string, d: string, lower: Lower)
    ensures
      var one := BuildImageReference(registry, p, s, c, lower);
      var two := BuildImageReference(registry, q, t, d, lower);
      one.Reference? && two.Reference? ==>
        (one == two <==>
          && ComponentOr(p, "project", lower) == ComponentOr(q, "project", lower)
          && ComponentOr(s, "service", lower) == ComponentOr(t, "service", lower)
          && AgreeUpTo(TrimBytes(c), TrimBytes(d), 12))
  {
    hide BuildImageReference, ComponentOr, TrimBytes, ShortCommitSha, AgreeUpTo;
    ShortShasAgree(c, d);
    PartsAreTold(registry, p, s, c, q, t, d, lower);
  }

  lemma PartsAreTold(
    registry: RegistryConfig, p: string, s: string, c: string, q: string, t: string, d: string, lower: Lower)
    ensures
      var one := BuildImageReference(registry, p, s, c, lower);
      var two := BuildImageReference(registry, q, t, d, lower);
      one.Reference? && two.Reference? ==>
        (one == two <==>
          && ComponentOr(p, "project", lower) == ComponentOr(q, "project", lower)
          && ComponentOr(s, "service", lower) == ComponentOr(t, "service", lower)
          && ShortCommitSha(c) == ShortCommitSha(d))
  {
    hide BuildImageReference, NormalizeHost, ComponentOr, TrimBytes, ShortCommitSha, Join, PrefixParts;
    var one := BuildImageReference(registry, p, s, c, lower);
    var two := BuildImageReference(registry, q, t, d, lower);
    if one.Reference? && two.Reference? {
      var host := NormalizeHost(registry.host, lower);
      var parts := PrefixParts(registry.repositoryPrefix, lower);
      var (p1, s1, c1) := (ComponentOr(p, "project", lower), ComponentOr(s, "service", lower), ShortCommitSha(c));
      var (p2, s2, c2) := (ComponentOr(q, "project", lower), ComponentOr(t, "service", lower), ShortCommitSha(d));
      EndsAreComponents(p, s, lower);
      EndsAreComponents(q, t, lower);
      assert p1 in [p1, s1] && s1 in [p1, s1] && p2 in [p2, s2] && s2 in [p2, s2];
      LayoutByParts(registry, p, s, c, lower);
      LayoutByParts(registry, q, t, d, lower);
      var lead := PathLead(host, parts);
      LeadIsShared(host, parts, p1, s1, c1);
      LeadIsShared(host, parts, p2, s2, c2);
      if lead + (p1 + "/" + (s1 + ":" + c1)) == lead + (p2 + "/" + (s2 + ":" + c2)) {
        SamePrefix(lead, p1 + "/" + (s1 + ":" + c1), p2 + "/" + (s2 + ":" + c2));
        CutUnique(p1, s1 + ":" + c1, p2, s2 + ":" + c2, '/');
        CutUnique(s1, c1, s2, c2, ':');
      }
    }
  }

  function PathLead(host: string, parts: seq<string>): string {
    if parts == [] then host + "/" else host + "/" + (Join(parts, '/') + "/")
  }

  lemma LeadIsShared(host: string, parts: seq<string>, p: string, s: string, c: string)
    ensures host + "/" + Join(parts + [p, s], '/') + ":" + c == PathLead(host, parts) + (p + "/" + (s + ":" + c))
  {
    var ends := p + "/" + s;
    TwoParts(p, s);
    Regroup(p + "/", s, ":" + c);
    assert ends + (":" + c) == p + "/" + (s + ":" + c);
    if parts == [] {
      assert parts + [p, s] == [p, s];
      Regroup(host + "/", ends, ":" + c);
    } else {
      var front := Join(parts, '/') + "/";
      JoinAppend(parts, [p, s], '/');
      Regroup(host + "/", front, ends);
      Regroup(host + "/" + front, ends, ":" + c);
    }
  }

  lemma TwoParts(p: string, s: string)
    ensures Join([p, s], '/') == p + "/" + s
  {
    assert [p, s][1..] == [s];
  }

  lemma SamePrefix(lead: string, a: string, b: string)
    requires lead + a == lead + b
    ensures a == b
  {
    assert (lead + a)[|lead|..] == a && (lead + b)[|lead|..] == b;
  }

  // ------------------------------------------------------------------ normalising twice

  lemma {:induction false} TrimmedEnds(s: string)
    ensures var t := TrimSpace(s); t != "" ==> !IsSpace(t[0]) && !IsSpace(t[|t| - 1])
    ensures s != "" && !IsSpace(s[0]) ==> TrimSpace(s) != ""
    ensures TrimSpace(s) == s <==> s == "" || (!IsSpace(s[0]) && !IsSpace(s[|s| - 1]))
  {
    LeftEnd(s);
    RightEnd(TrimLeft(s));
  }

  lemma {:induction false} LeftEnd(s: string)
    ensures var t := TrimLeft(s); |t| <= |s| && (t != "" ==> !IsSpace(t[0]))
    ensures TrimLeft(s) == s <==> s == "" || !IsSpace(s[0])
  {
    if s != "" && IsSpace(s[0]) {
      LeftEnd(s[1..]);
    }
  }

  lemma {:induction false} RightEnd(s: string)
    ensures var t := TrimRight(s); |t| <= |s| && t == s[..|t|] && (t != "" ==> !IsSpace(t[|t| - 1]))
    ensures TrimRight(s) == s <==> s == "" || !IsSpace(s[|s| - 1])
    ensures s != "" && !IsSpace(s[0]) ==> TrimRight(s) != ""
  {
    if s != "" && IsSpace(s[|s| - 1]) {
      RightEnd(s[..|s| - 1]);
    }
  }

  /** Host normalisation repeats itself unless a slash stands last behind another slash or a space. */
  lemma HostFixedExactly(host: string, lower: Lower)
    ensures var once := NormalizeHost(host, lower);
      var t := ToLower(TrimSpace(host), lower);
      NormalizeHost(once, lower) == once
      <==> !(|t| > 1 && t[|t| - 1] == '/' && (t[|t| - 2] == '/' || IsSpace(t[|t| - 2])))
  {
    var t := ToLower(TrimSpace(host), lower);
    var once := TrimSlash(t);
    TrimmedEnds(host);
    TrimmedEnds(once);
    TrimmedSize(once);
    LoweredTwice(TrimSpace(host), |once|, lower);
    hide TrimSpace, ToLower;
    assert once == t[..|once|];
    SlashOrSpaceShows(t, once, TrimSpace(once));
  }

  /** t has no white space at its ends, once is t without a last slash, and trimmed is once trimmed. */
  lemma SlashOrSpaceShows(t: string, once: string, trimmed: string)
    requires t != "" ==> !IsSpace(t[0]) && !IsSpace(t[|t| - 1])
    requires once == TrimSlash(t) && |trimmed| <= |once|
    requires trimmed == once <==> once == "" || (!IsSpace(once[0]) && !IsSpace(once[|once| - 1]))
    requires |trimmed| == |once| ==> trimmed == once
    ensures
      trimmed == once && TrimSlash(once) == once
      <==> !(|t| > 1 && t[|t| - 1] == '/' && (t[|t| - 2] == '/' || IsSpace(t[|t| - 2])))
  {
    hide IsSpace;
  }

  lemma TrimmedSize(s: string)
    ensures |TrimSpace(s)| <= |s| && (|TrimSpace(s)| == |s| ==> TrimSpace(s) == s)
  {
    LeftEnd(s);
    RightEnd(TrimLeft(s));
    LeftSize(s);
  }

  lemma {:induction false} LeftSize(s: string)
    ensures |TrimLeft(s)| == |s| ==> TrimLeft(s) == s
  {
    if s != "" && IsSpace(s[0]) {
      LeftEnd(s[1..]);
    }
  }

  lemma LoweredTwice(s: string, n: nat, lower: Lower)
    requires n <= |s|
    ensures ToLower(ToLower(s, lower)[..n], lower) == ToLower(s, lower)[..n]
  {
  }

  /** Shortening a commit repeats itself unless the cut after twelve bytes leaves white space at the end. */
  lemma ShortShaFixedExactly(commit: string)
    ensures var t := TrimBytes(commit);
      ShortCommitSha(ShortCommitSha(commit)) == ShortCommitSha(commit) <==> !(|t| > 12 && TrailingSpace(t[..12]) > 0)
    ensures var t := TrimBytes(commit); ShortCommitSha(commit) == t[..if |t| < 12 then |t| else 12]
  {
    ShortShaIsPrefix(commit);
    hide TrimBytes, LeadingSpace, TrailingSpace;
    var t, short := TrimBytes(commit), ShortCommitSha(commit);
    BytesAreTrimmed(commit);
    BytesAreTrimmed(short);
    LeadingOfPrefix(t, |short|);
    TrimmedBytesSize(short);
  }

  lemma TrimmedBytesSize(s: string)
    ensures |TrimBytes(s)| <= |s|
  {
    TrimmedRight(TrimBytesLeft(s));
    LeftBytesSize(s);
  }

  lemma {:induction false} LeftBytesSize(s: string)
    ensures |TrimBytesLeft(s)| <= |s|
    decreases |s|
  {
    if LeadingSpace(s) > 0 {
      LeftBytesSize(s[LeadingSpace(s)..]);
    }
  }

  /** The smallest cases in which normalising again does change the result; the second commit is cut behind
      the two bytes of a no-break space. */
  lemma NormalizingAgainCanMatter(lower: Lower)
    ensures NormalizeHost(NormalizeHost("r//", lower), lower) != NormalizeHost("r//", lower)
    ensures var sha := "0123456789a b"; ShortCommitSha(ShortCommitSha(sha)) != ShortCommitSha(sha)
    ensures var sha := "0123456789\U{C2}\U{A0}b"; ShortCommitSha(ShortCommitSha(sha)) != ShortCommitSha(sha)
  {
    SlashesRemain(lower);
    hide ShortCommitSha, LeadingSpace, TrailingSpace;
    var space, noBreak := "0123456789a b", "0123456789\U{C2}\U{A0}b";
    AlphanumericEnds(space);
    AlphanumericEnds(noBreak);
    assert space[..12][11..] == " " && noBreak[..12][11..] == "\U{A0}" && noBreak[..12][10..] == "\U{C2}\U{A0}";
    EndsInSpace(space[..12]);
    EndsInSpace(noBreak[..12]);
    CutLeavesSpace(space);
    CutLeavesSpace(noBreak);
  }

  lemma SlashesRemain(lower: Lower)
    ensures NormalizeHost(NormalizeHost("r//", lower), lower) != NormalizeHost("r//", lower)
  {
    TrimmedEnds("r//");
    HostFixedExactly("r//", lower);
    var t := ToLower("r//", lower);
  }

  lemma SpacesAreNotAlphanumeric(b: string)
    requires EncodesSpace(b)
    ensures b != "" && !IsAlphanumeric(b[0]) && !IsAlphanumeric(b[|b| - 1])
  {
  }

  lemma AlphanumericEnds(s: string)
    requires s != "" && IsAlphanumeric(s[0]) && IsAlphanumeric(s[|s| - 1])
    ensures LeadingSpace(s) == 0 && TrailingSpace(s) == 0
  {
    hide EncodesSpace;
    if LeadingSpace(s) > 0 {
      SpacesAreNotAlphanumeric(s[..LeadingSpace(s)]);
    }
    if TrailingSpace(s) > 0 {
      SpacesAreNotAlphanumeric(s[|s| - TrailingSpace(s)..]);
    }
  }

  lemma EndsInSpace(s: string)
    requires |s| >= 2 && (s[|s| - 1..] == " " || s[|s| - 2..] == "\U{C2}\U{A0}")
    ensures TrailingSpace(s) > 0
  {
  }

  lemma CutLeavesSpace(sha: string)
    requires |sha| > 12 && LeadingSpace(sha) == 0 && TrailingSpace(sha) == 0 && TrailingSpace(sha[..12]) > 0
    ensures ShortCommitSha(ShortCommitSha(sha)) != ShortCommitSha(sha)
  {
    hide TrimBytes, LeadingSpace, TrailingSpace;
    BytesAreTrimmed(sha);
    ShortShaFixedExactly(sha);
  }
}
