/** The configuration files: when an existing file is kept, the rewriting
    of the git configuration template, and the copying of the zsh
    configuration files. */
module ConfigFiles {
  import opened Base
  import opened Planning

  /** Keep an existing file: the probe found it and `-f` is not set. Used
      for .zshrc, the zsh configuration files, the zsh theme and
      .gitconfig. */
  predicate SkipExisting(stat: StatResult, force: bool) {
    stat == Exists && !force
  }

  /** Write a file: the probe says it does not exist, or `-f` is set. Used
      for .vimrc, vim-plug and the zsh plugins. */
  predicate WriteMissingOrForced(stat: StatResult, force: bool) {
    stat == NotExist || force
  }

  /** The old .zshrc is renamed to a backup exactly when it exists and is
      about to be overwritten. */
  predicate BackupZshrc(stat: StatResult, force: bool) {
    stat == Exists && force
  }

  /** The two rules are each other's negation except on a failed probe
      without `-f`: then the first writes and the second does not. With
      `-f` both always write. */
  lemma {:induction false} SkipAndWriteRules(stat: StatResult, force: bool)
    ensures stat != StatFailed || force ==> (SkipExisting(stat, force) <==> !WriteMissingOrForced(stat, force))
    ensures stat == StatFailed && !force ==> !SkipExisting(stat, force) && !WriteMissingOrForced(stat, force)
    ensures force ==> !SkipExisting(stat, force) && WriteMissingOrForced(stat, force)
    ensures BackupZshrc(stat, force) ==> !SkipExisting(stat, force)
  {
  }

  /** `strings.ReplaceAll` for a non-empty pattern: occurrences are replaced
      left to right without overlapping. */
  function ReplaceAll(s: string, pat: string, rep: string): (r: string)
    requires |pat| > 0
    ensures HasPrefix(s, pat) ==> HasPrefix(r, rep)
    decreases |s|
  {
    if |s| < |pat| then s
    else if s[..|pat|] == pat then
      var rest := ReplaceAll(s[|pat|..], pat, rep);
      assert (rep + rest)[..|rep|] == rep;
      rep + rest
    else [s[0]] + ReplaceAll(s[1..], pat, rep)
  }

  /** The number of occurrences `ReplaceAll` replaces. */
  function Occurrences(s: string, pat: string): nat
    requires |pat| > 0
    decreases |s|
  {
    if |s| < |pat| then 0
    else if s[..|pat|] == pat then 1 + Occurrences(s[|pat|..], pat)
    else Occurrences(s[1..], pat)
  }

  /** Each replacement changes the length by the difference of the two
      strings. */
  lemma {:induction false} ReplaceAllLength(s: string, pat: string, rep: string)
    requires |pat| > 0
    ensures |ReplaceAll(s, pat, rep)| == |s| + Occurrences(s, pat) * (|rep| - |pat|)
    decreases |s|
  {
    if |s| >= |pat| {
      var d := |rep| - |pat|;
      if s[..|pat|] == pat {
        var t := s[|pat|..];
        ReplaceAllLength(t, pat, rep);
        assert |s| == |pat| + |t|;
        assert |ReplaceAll(s, pat, rep)| == |rep| + |ReplaceAll(t, pat, rep)|;
        Distribute(Occurrences(t, pat), d);
      } else {
        ReplaceAllLength(s[1..], pat, rep);
      }
    }
  }

  lemma Distribute(n: int, d: int)
    ensures (1 + n) * d == d + n * d
  {
  }

  /** Text without the pattern's first character passes through unchanged. */
  lemma {:induction false} ReplaceAllSkips(a: string, b: string, pat: string, rep: string)
    requires |pat| > 0 && pat[0] !in a
    ensures ReplaceAll(a + b, pat, rep) == a + ReplaceAll(b, pat, rep)
    decreases |a|
  {
    if a != [] {
      var s := a + b;
      assert s[0] == a[0] && a[0] in a;
      if |s| >= |pat| {
        assert s[..|pat|][0] == a[0];
        assert s[..|pat|] != pat;
        assert ReplaceAll(s, pat, rep) == [s[0]] + ReplaceAll(s[1..], pat, rep);
        assert s[1..] == a[1..] + b;
        ReplaceAllSkips(a[1..], b, pat, rep);
        assert a == [a[0]] + a[1..];
        assert [a[0]] + (a[1..] + ReplaceAll(b, pat, rep)) == a + ReplaceAll(b, pat, rep);
      } else {
        assert ReplaceAll(b, pat, rep) == b;
      }
    } else {
      assert a + b == b;
    }
  }

  /** `pat` occurs in `s` at position `i`. */
  predicate OccursAt(s: string, pat: string, i: int) {
    0 <= i && i + |pat| <= |s| && s[i..i + |pat|] == pat
  }

  /** An occurrence in a suffix is an occurrence in the whole text. */
  lemma OccursAtShift(s: string, k: nat, pat: string, i: int)
    requires k <= |s| && OccursAt(s[k..], pat, i)
    ensures OccursAt(s, pat, i + k)
  {
    assert s[k..][i..i + |pat|] == s[i + k..i + k + |pat|];
  }

  /** Text in which the pattern occurs nowhere is left unchanged, and has no
      occurrence to count. */
  lemma {:induction false} NoOccurrenceUnchanged(s: string, pat: string, rep: string)
    requires |pat| > 0
    requires forall i :: !OccursAt(s, pat, i)
    ensures ReplaceAll(s, pat, rep) == s
    ensures Occurrences(s, pat) == 0
    decreases |s|
  {
    if |s| >= |pat| {
      assert !OccursAt(s, pat, 0);
      forall i ensures !OccursAt(s[1..], pat, i) {
        if OccursAt(s[1..], pat, i) {
          OccursAtShift(s, 1, pat, i);
        }
      }
      NoOccurrenceUnchanged(s[1..], pat, rep);
      assert s == [s[0]] + s[1..];
    }
  }

  /** Text without the pattern's first character is left unchanged. */
  lemma FirstCharAbsentUnchanged(s: string, pat: string, rep: string)
    requires |pat| > 0 && pat[0] !in s
    ensures ReplaceAll(s, pat, rep) == s
  {
    ReplaceAllSkips(s, [], pat, rep);
    assert s + [] == s;
  }

  /** No occurrence of `pat` in `a + t` starts in `a` and ends in `t`. */
  predicate NoStraddle(a: string, t: string, pat: string) {
    forall i :: 0 <= i < |a| < i + |pat| ==> !OccursAt(a + t, pat, i)
  }

  /** Dropping a prefix of `a` keeps the boundary free of occurrences. */
  lemma NoStraddleShift(a: string, t: string, pat: string, k: nat)
    requires k <= |a| && NoStraddle(a, t, pat)
    ensures NoStraddle(a[k..], t, pat)
  {
    var s := a + t;
    assert s[k..] == a[k..] + t;
    forall i | 0 <= i < |a[k..]| < i + |pat| ensures !OccursAt(a[k..] + t, pat, i) {
      if OccursAt(a[k..] + t, pat, i) {
        OccursAtShift(s, k, pat, i);
      }
    }
  }

  /** When no occurrence straddles the end of `a`, replacing in `a + t` is
      replacing in each part. */
  lemma {:induction false} ReplaceAllSplit(a: string, t: string, pat: string, rep: string)
    requires |pat| > 0 && NoStraddle(a, t, pat)
    ensures ReplaceAll(a + t, pat, rep) == ReplaceAll(a, pat, rep) + ReplaceAll(t, pat, rep)
    decreases |a|
  {
    var s := a + t;
    if a == [] {
      assert s == t;
    } else if |a| < |pat| {
      ShortSplit(a, t, pat, rep);
    } else if a[..|pat|] == pat {
      MatchStep(a, t, pat, rep);
      NoStraddleShift(a, t, pat, |pat|);
      ReplaceAllSplit(a[|pat|..], t, pat, rep);
    } else {
      SkipStep(a, t, pat, rep);
      NoStraddleShift(a, t, pat, 1);
      ReplaceAllSplit(a[1..], t, pat, rep);
    }
  }

  /** One step of `ReplaceAll` over `a + t` and over `a` when `a` starts
      with the pattern. */
  lemma MatchStep(a: string, t: string, pat: string, rep: string)
    requires 0 < |pat| <= |a| && a[..|pat|] == pat
    ensures ReplaceAll(a + t, pat, rep) == rep + ReplaceAll(a[|pat|..] + t, pat, rep)
    ensures ReplaceAll(a, pat, rep) == rep + ReplaceAll(a[|pat|..], pat, rep)
  {
    var s := a + t;
    assert s[..|pat|] == a[..|pat|];
    assert s[|pat|..] == a[|pat|..] + t;
  }

  /** One step of `ReplaceAll` over `a + t` and over `a` when `a` does not
      start with the pattern. */
  lemma SkipStep(a: string, t: string, pat: string, rep: string)
    requires 0 < |pat| <= |a| && a[..|pat|] != pat
    ensures ReplaceAll(a + t, pat, rep) == [a[0]] + ReplaceAll(a[1..] + t, pat, rep)
    ensures ReplaceAll(a, pat, rep) == [a[0]] + ReplaceAll(a[1..], pat, rep)
  {
    var s := a + t;
    assert s[..|pat|] == a[..|pat|];
    assert s[1..] == a[1..] + t;
  }

  /** The case of `ReplaceAllSplit` where `a` is shorter than the pattern. */
  lemma {:induction false} ShortSplit(a: string, t: string, pat: string, rep: string)
    requires 0 < |a| < |pat| && NoStraddle(a, t, pat)
    ensures ReplaceAll(a + t, pat, rep) == a + ReplaceAll(t, pat, rep)
    decreases |a|
  {
    if |a + t| < |pat| {
      assert ReplaceAll(t, pat, rep) == t;
    } else {
      ShortStep(a, t, pat, rep);
      if |a| == 1 {
        assert a[1..] + t == t;
      } else {
        NoStraddleShift(a, t, pat, 1);
        ShortSplit(a[1..], t, pat, rep);
      }
      assert a == [a[0]] + a[1..];
    }
  }

  /** With `a` shorter than the pattern and no occurrence at its start, the
      first character of `a + t` is copied. */
  lemma ShortStep(a: string, t: string, pat: string, rep: string)
    requires 0 < |a| < |pat| <= |a + t| && NoStraddle(a, t, pat)
    ensures ReplaceAll(a + t, pat, rep) == [a[0]] + ReplaceAll(a[1..] + t, pat, rep)
  {
    var s := a + t;
    assert !OccursAt(s, pat, 0);
    assert s[1..] == a[1..] + t;
  }

  /** Replacing a pattern by itself is the identity. */
  lemma {:induction false} ReplaceAllSelf(s: string, pat: string)
    requires |pat| > 0
    ensures ReplaceAll(s, pat, pat) == s
    decreases |s|
  {
    if |s| >= |pat| {
      if s[..|pat|] == pat {
        ReplaceAllSelf(s[|pat|..], pat);
        assert s == s[..|pat|] + s[|pat|..];
      } else {
        ReplaceAllSelf(s[1..], pat);
        assert s == [s[0]] + s[1..];
      }
    }
  }

  /** An occurrence at the front is replaced. */
  lemma ReplaceAllFront(pat: string, rest: string, rep: string)
    requires |pat| > 0
    ensures ReplaceAll(pat + rest, pat, rep) == rep + ReplaceAll(rest, pat, rep)
  {
    var s := pat + rest;
    assert s[..|pat|] == pat;
    assert s[|pat|..] == rest;
  }

  const UserPlaceholder := "{{.User}}"
  const EmailPlaceholder := "{{.Email}}"

  /** The line that replaces a placeholder, or the placeholder itself when
      the value is empty. */
  function UserLine(name: string): string {
    if name == "" then UserPlaceholder else "name = " + name
  }

  function EmailLine(email: string): string {
    if email == "" then EmailPlaceholder else "email = " + email
  }

  /** The text written to .gitconfig: the user placeholder replaced when a
      name is given, then the email placeholder when an email is given. */
  function GitConfigText(template: string, name: string, email: string): (r: string)
    ensures r == ReplaceAll(ReplaceAll(template, UserPlaceholder, UserLine(name)), EmailPlaceholder, EmailLine(email))
  {
    ReplaceAllSelf(template, UserPlaceholder);
    ReplaceAllSelf(ReplaceAll(template, UserPlaceholder, UserLine(name)), EmailPlaceholder);
    var withUser := if name != "" then ReplaceAll(template, UserPlaceholder, "name = " + name) else template;
    if email != "" then ReplaceAll(withUser, EmailPlaceholder, "email = " + email) else withUser
  }

  /** What the git configuration step does with .gitconfig. */
  datatype GitAction = Keep | Write(content: string)

  /** `git`'s decision and content: keep an existing file unless forced,
      otherwise fill in the template value by value. */
  method ConfigureGit(stat: StatResult, force: bool, template: string, name: string, email: string)
    returns (action: GitAction)
    ensures action == Keep <==> SkipExisting(stat, force)
    ensures action.Write? ==> action.content == GitConfigText(template, name, email)
  {
    if SkipExisting(stat, force) {
      return Keep;
    }
    var content := template;
    if name != "" {
      content := ReplaceAll(content, UserPlaceholder, "name = " + name);
    }
    if email != "" {
      content := ReplaceAll(content, EmailPlaceholder, "email = " + email);
    }
    return Write(content);
  }

  /** One placeholder is not touched by the replacement of the other. */
  lemma OtherPlaceholderKept(p: string, q: string, rest: string, rep: string)
    requires (p == UserPlaceholder && q == EmailPlaceholder) || (p == EmailPlaceholder && q == UserPlaceholder)
    ensures ReplaceAll(p + rest, q, rep) == p + ReplaceAll(rest, q, rep)
  {
    assert p[3] != q[3] && p[2] != q[1];
    assert q[0] !in p[2..];
    Mismatch(p, q, rest, rep);
  }

  /** Replacing one placeholder leaves the other in place wherever it
      stands: the text around it is processed on its own. */
  lemma PlaceholderKeptAnywhere(a: string, p: string, b: string, q: string, rep: string)
    requires (p == UserPlaceholder && q == EmailPlaceholder) || (p == EmailPlaceholder && q == UserPlaceholder)
    ensures ReplaceAll(a + p + b, q, rep) == ReplaceAll(a, q, rep) + p + ReplaceAll(b, q, rep)
  {
    PlaceholderChars(p, q);
    OtherPlaceholderKept(p, q, b, rep);
    KeptInMiddle(a, p, b, q, rep);
  }

  lemma PlaceholderChars(p: string, q: string)
    requires (p == UserPlaceholder && q == EmailPlaceholder) || (p == EmailPlaceholder && q == UserPlaceholder)
    ensures |p| >= 2 && |q| >= 3 && p[0] !in q[2..] && q[2] != p[1]
  {
  }

  /** A text `p` that passes through at the front of `p + b`, and that no
      occurrence can overlap from the left, passes through anywhere. */
  lemma KeptInMiddle(a: string, p: string, b: string, q: string, rep: string)
    requires |p| >= 2 && |q| >= 3 && p[0] !in q[2..] && q[2] != p[1]
    requires ReplaceAll(p + b, q, rep) == p + ReplaceAll(b, q, rep)
    ensures ReplaceAll(a + p + b, q, rep) == ReplaceAll(a, q, rep) + p + ReplaceAll(b, q, rep)
  {
    BraceBoundary(a, p + b, q);
    ReplaceAllSplit(a, p + b, q, rep);
    assert a + p + b == a + (p + b);
  }

  /** No occurrence of `q` straddles the end of `a` when the text after it
      starts with a character `q` has only in its first two positions,
      and the two characters there cannot be `q`'s second and third. */
  lemma BraceBoundary(a: string, t: string, q: string)
    requires |t| >= 2 && |q| >= 3 && t[0] !in q[2..] && q[2] != t[1]
    ensures NoStraddle(a, t, q)
  {
    var s := a + t;
    forall i | 0 <= i < |a| < i + |q| ensures !OccursAt(s, q, i) {
      var j := |a| - i;
      if i + |q| <= |s| {
        var w := s[i..i + |q|];
        if j >= 2 {
          assert w[j] == t[0] && q[j] == q[2..][j - 2];
        } else {
          assert w[2] == t[1];
        }
      }
    }
  }

  /** A prefix that differs from the pattern at its first and second
      positions, and whose rest lacks the pattern's first character, is
      copied unchanged. */
  lemma Mismatch(p: string, q: string, rest: string, rep: string)
    requires |p| >= 4 && |q| >= 4
    requires p[3] != q[3] && p[2] != q[1] && q[0] !in p[2..]
    ensures ReplaceAll(p + rest, q, rep) == p + ReplaceAll(rest, q, rep)
  {
    var s := p + rest;
    var u := p[2..];
    var t := s[1..];
    ReplaceAllSkips(u, rest, q, rep);
    assert t[1..] == u + rest;
    if |t| >= |q| {
      assert t[..|q|][1] == p[2];
      assert ReplaceAll(t, q, rep) == [t[0]] + ReplaceAll(t[1..], q, rep);
    } else {
      assert ReplaceAll(u + rest, q, rep) == u + rest;
    }
    if |s| >= |q| {
      assert s[..|q|][3] == p[3];
      assert ReplaceAll(s, q, rep) == [s[0]] + ReplaceAll(t, q, rep);
    } else {
      assert ReplaceAll(rest, q, rep) == rest;
    }
    assert p == [p[0]] + [p[1]] + u;
  }

  /** A pattern followed by text without its first character is replaced
      once. */
  lemma ReplaceOnlyFront(pat: string, post: string, rep: string)
    requires |pat| > 0 && pat[0] !in post
    ensures ReplaceAll(pat + post, pat, rep) == rep + post
  {
    ReplaceAllFront(pat, post, rep);
    FirstCharAbsentUnchanged(post, pat, rep);
  }

  /** Filling the user placeholder of a template of the expected shape. */
  lemma UserStep(pre: string, mid: string, post: string, name: string)
    requires '{' !in pre && '{' !in mid && '{' !in post && name != ""
    ensures ReplaceAll(pre + UserPlaceholder + mid + EmailPlaceholder + post, UserPlaceholder, "name = " + name) ==
      pre + UserLine(name) + mid + EmailPlaceholder + post
  {
    var u, e, line := UserPlaceholder, EmailPlaceholder, "name = " + name;
    UserTail(mid, post, line);
    Regroup(pre, u, mid, e, post);
    ReplaceAllSkips(pre, u + (mid + e + post), u, line);
    Regroup(pre, line, mid, e, post);
  }

  /** The user placeholder and the text after it. */
  lemma UserTail(mid: string, post: string, line: string)
    requires '{' !in mid && '{' !in post
    ensures ReplaceAll(UserPlaceholder + (mid + EmailPlaceholder + post), UserPlaceholder, line) ==
      line + (mid + EmailPlaceholder + post)
  {
    var u, e := UserPlaceholder, EmailPlaceholder;
    ReplaceAllFront(u, mid + e + post, line);
    assert mid + e + post == mid + (e + post);
    ReplaceAllSkips(mid, e + post, u, line);
    OtherPlaceholderKept(e, u, post, line);
    FirstCharAbsentUnchanged(post, u, line);
  }

  /** The email placeholder and the text after it, once the user line is in
      place. */
  lemma EmailTail(mid: string, post: string, email: string)
    requires '{' !in mid && '{' !in post && email != ""
    ensures ReplaceAll(mid + EmailPlaceholder + post, EmailPlaceholder, "email = " + email) ==
      mid + EmailLine(email) + post
  {
    var e, line := EmailPlaceholder, "email = " + email;
    var ePost := e + post;
    assert mid + e + post == mid + ePost;
    ReplaceAllSkips(mid, ePost, e, line);
    ReplaceOnlyFront(e, post, line);
    assert mid + (line + post) == mid + line + post;
  }

  /** Filling the email placeholder once the user line is in place. */
  lemma EmailStep(pre: string, userLine: string, mid: string, post: string, email: string)
    requires '{' !in pre && '{' !in mid && '{' !in post && email != ""
    requires userLine == UserPlaceholder || '{' !in userLine
    ensures ReplaceAll(pre + userLine + mid + EmailPlaceholder + post, EmailPlaceholder, "email = " + email) ==
      pre + userLine + mid + EmailLine(email) + post
  {
    var e, line := EmailPlaceholder, "email = " + email;
    EmailTail(mid, post, email);
    UserLineKept(userLine, mid + e + post, line);
    Regroup(pre, userLine, mid, e, post);
    ReplaceAllSkips(pre, userLine + (mid + e + post), e, line);
    Regroup(pre, userLine, mid, line, post);
  }

  lemma Regroup(a: string, b: string, c: string, d: string, e: string)
    ensures a + b + c + d + e == a + (b + (c + d + e))
  {
  }

  /** The user line, filled in or not, survives the email replacement. */
  lemma UserLineKept(userLine: string, tail: string, line: string)
    requires userLine == UserPlaceholder || '{' !in userLine
    ensures ReplaceAll(userLine + tail, EmailPlaceholder, line) == userLine + ReplaceAll(tail, EmailPlaceholder, line)
  {
    if userLine == UserPlaceholder {
      OtherPlaceholderKept(userLine, EmailPlaceholder, tail, line);
    } else {
      ReplaceAllSkips(userLine, tail, EmailPlaceholder, line);
    }
  }

  /** For a template with one user and one email placeholder and no other
      braces, each placeholder becomes its line when its value is given and
      stays as it is when the value is empty. */
  lemma GitConfigFill(pre: string, mid: string, post: string, name: string, email: string)
    requires '{' !in pre && '{' !in mid && '{' !in post && '{' !in name
    ensures GitConfigText(pre + UserPlaceholder + mid + EmailPlaceholder + post, name, email) ==
      pre + UserLine(name) + mid + EmailLine(email) + post
  {
    var template := pre + UserPlaceholder + mid + EmailPlaceholder + post;
    if name != "" {
      UserStep(pre, mid, post, name);
      assert '{' !in UserLine(name) by {
        assert UserLine(name) == "name = " + name;
      }
    }
    if email != "" {
      EmailStep(pre, UserLine(name), mid, post, email);
    }
  }

  /** With neither value given, the template is written unchanged. */
  lemma GitConfigDefaults(template: string)
    ensures GitConfigText(template, "", "") == template
  {
  }

  /** The zsh configuration files, in the order they are copied. */
  const ZshConfigFiles: seq<string> := ["aliases.zsh", "envs.zsh", "function.zsh", "fzf.zsh"]

  /** The files a copy loop wrote and the error it ended with, if any. */
  datatype CopyOutcome = CopyOutcome(written: seq<string>, err: Option<Error>)

  function AfterWriting(files: seq<string>, o: CopyOutcome): CopyOutcome {
    CopyOutcome(files + o.written, o.err)
  }

  /** The copy loop of the zsh step over `files`: a file the skip rule keeps
      is passed over; the others are written in order until a write fails,
      which ends the step with the zsh configuration error. */
  function CopySpec(files: seq<string>, stat: string -> StatResult, force: bool,
                    writeErr: string -> Option<Error>): CopyOutcome
  {
    if files == [] then CopyOutcome([], None)
    else if SkipExisting(stat(files[0]), force) then CopySpec(files[1..], stat, force, writeErr)
    else if writeErr(files[0]).Some? then
      CopyOutcome([], Some(Wrapped(ToolFailure(ToolZsh, ActionConfig), writeErr(files[0]).value)))
    else AfterWriting([files[0]], CopySpec(files[1..], stat, force, writeErr))
  }

  /** Copies the zsh configuration files, returning the files written and
      the error, if any. */
  method CopyZshConfigFiles(files: seq<string>, stat: string -> StatResult, force: bool,
                            writeErr: string -> Option<Error>) returns (o: CopyOutcome)
    ensures o == CopySpec(files, stat, force, writeErr)
  {
    var written := [];
    var i := 0;
    while i < |files|
      invariant 0 <= i <= |files|
      invariant CopySpec(files, stat, force, writeErr) == AfterWriting(written, CopySpec(files[i..], stat, force, writeErr))
    {
      assert files[i..][0] == files[i];
      assert files[i..][1..] == files[i + 1..];
      if !SkipExisting(stat(files[i]), force) {
        var e := writeErr(files[i]);
        if e.Some? {
          assert written + [] == written;
          return CopyOutcome(written, Some(Wrapped(ToolFailure(ToolZsh, ActionConfig), e.value)));
        }
        assert (written + [files[i]]) + CopySpec(files[i + 1..], stat, force, writeErr).written ==
          written + ([files[i]] + CopySpec(files[i + 1..], stat, force, writeErr).written);
        written := written + [files[i]];
      }
      i := i + 1;
    }
    assert written + [] == written;
    return CopyOutcome(written, None);
  }

  /** The copy loop writes exactly the files the skip rule does not keep, in
      order, when no write fails; a kept file is never written. */
  lemma {:induction false} CopyWritesUnskipped(files: seq<string>, stat: string -> StatResult, force: bool,
                                               writeErr: string -> Option<Error>)
    ensures CopySpec(files, stat, force, writeErr).err.None? <==>
      forall i :: 0 <= i < |files| && !SkipExisting(stat(files[i]), force) ==> writeErr(files[i]).None?
    ensures CopySpec(files, stat, force, writeErr).err.None? ==>
      CopySpec(files, stat, force, writeErr).written == Filter(files, f => !SkipExisting(stat(f), force))
    ensures forall f :: f in CopySpec(files, stat, force, writeErr).written ==>
      f in files && !SkipExisting(stat(f), force)
  {
    if files != [] {
      CopyWritesUnskipped(files[1..], stat, force, writeErr);
      forall i | 1 <= i < |files| ensures files[i] == files[1..][i - 1] { }
    }
  }

  /** With `-f`, every file is written unless a write fails. */
  lemma ForceWritesAll(files: seq<string>, stat: string -> StatResult, writeErr: string -> Option<Error>)
    requires forall i :: 0 <= i < |files| ==> writeErr(files[i]).None?
    ensures CopySpec(files, stat, true, writeErr) == CopyOutcome(files, None)
  {
    CopyWritesUnskipped(files, stat, true, writeErr);
    FilterUniform(files, f => !SkipExisting(stat(f), true), true);
  }

  /** The zsh step's copy: the files it writes are those of the fixed list
      the skip rule does not keep, in the list's order; with `-f` and no
      failing write, all four. */
  lemma ZshConfigCopy(stat: string -> StatResult, force: bool, writeErr: string -> Option<Error>)
    requires forall f :: writeErr(f).None?
    ensures CopySpec(ZshConfigFiles, stat, force, writeErr).err.None?
    ensures CopySpec(ZshConfigFiles, stat, force, writeErr).written ==
      Filter(["aliases.zsh", "envs.zsh", "function.zsh", "fzf.zsh"], f => !SkipExisting(stat(f), force))
    ensures force ==>
      CopySpec(ZshConfigFiles, stat, force, writeErr).written == ["aliases.zsh", "envs.zsh", "function.zsh", "fzf.zsh"]
  {
    CopyWritesUnskipped(ZshConfigFiles, stat, force, writeErr);
    if force {
      ForceWritesAll(ZshConfigFiles, stat, writeErr);
    }
  }

  /** The values given to the envs.zsh template: each version manager's
      section is enabled exactly when that manager is among the planned
      tools. */
  datatype EnvsData = EnvsData(gvm: bool, java: bool, rust: bool, user: string)

  function EnvsTemplateData(f: Flags, user: string): EnvsData {
    EnvsData(f.all || f.gvm, f.all || f.java, f.all || f.rust, user)
  }

  lemma EnvsDataFollowsPlan(f: Flags, user: string)
    ensures EnvsTemplateData(f, user).gvm <==> Gvm in PlannedTools(f)
    ensures EnvsTemplateData(f, user).java <==> Sdkman in PlannedTools(f)
    ensures EnvsTemplateData(f, user).rust <==> Rustup in PlannedTools(f)
  {
    ToolPlannedIff(f, Gvm);
    ToolPlannedIff(f, Sdkman);
    ToolPlannedIff(f, Rustup);
  }
}
