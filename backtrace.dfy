/**
 * The backtrace section of a "Calling" entry: which caller frames are kept
 * under the `backtrace:` option, and how they are written as bullets.
 *
 * The caller frames themselves (Kernel#caller, minus the frames of the
 * tracing code) are given as a list; a Regexp is represented by its match
 * test.
 */
module Backtrace {
  import opened Wrappers
  import opened Inspector

  /** The `backtrace:` option: nil or false, true, a Regexp, or any other
      truthy value. */
  datatype Policy = Off | All | Matching(matches: string -> bool) | OtherTruthy

  /** Enumerable#grep with a pattern: the frames that match, in their order. */
  function Grep(matches: string -> bool, frames: seq<string>): (r: seq<string>)
    ensures |r| <= |frames|
    decreases |frames|
  {
    if frames == [] then []
    else (if matches(frames[0]) then [frames[0]] else []) + Grep(matches, frames[1..])
  }

  /** A frame is kept exactly when it is one of the frames and it matches. */
  lemma {:induction false} GrepMembers(matches: string -> bool, frames: seq<string>, f: string)
    ensures f in Grep(matches, frames) <==> f in frames && matches(f)
    decreases |frames|
  {
    if frames != [] {
      GrepMembers(matches, frames[1..], f);
      assert frames == [frames[0]] + frames[1..];
    }
  }

  /** Grep keeps the original order: the kept frames of a concatenation are
      the kept frames of its first part followed by those of its second. */
  lemma {:induction false} GrepConcat(matches: string -> bool, a: seq<string>, b: seq<string>)
    ensures Grep(matches, a + b) == Grep(matches, a) + Grep(matches, b)
    decreases |a|
  {
    if a == [] {
      assert a + b == b;
    } else {
      var head := if matches(a[0]) then [a[0]] else [];
      assert (a + b)[0] == a[0];
      assert (a + b)[1..] == a[1..] + b;
      assert Grep(matches, a + b) == head + Grep(matches, a[1..] + b);
      GrepConcat(matches, a[1..], b);
      assert Grep(matches, a) == head + Grep(matches, a[1..]);
    }
  }

  /** The frames MarkdownLogger#inspect_backtrace lists under a truthy policy. */
  function KeptFrames(policy: Policy, frames: seq<string>): seq<string> {
    match policy
    case Off => []
    case All => frames
    case Matching(matches) => Grep(matches, frames)
    case OtherTruthy => []
  }

  /** One bullet: the frame without its last character, closed by a backtick. */
  function Bullet(frame: string): string {
    "* " + Chop(frame) + "`"
  }

  function Bullets(frames: seq<string>): (r: seq<string>)
    ensures |r| == |frames|
    ensures forall i :: 0 <= i < |frames| ==> r[i] == Bullet(frames[i])
    decreases |frames|
  {
    if frames == [] then [] else Bullets(frames[..|frames| - 1]) + [Bullet(frames[|frames| - 1])]
  }

  /** MarkdownLogger#inspect_backtrace: nothing under a falsy policy,
      otherwise a "Backtrace:" header and the bullet list. */
  function InspectBacktrace(policy: Policy, frames: seq<string>): (r: Option<string>)
    ensures r.None? <==> policy.Off?
  {
    if policy.Off? then None
    else Some("\nBacktrace:\n\n" + Join("\n", Bullets(KeptFrames(policy, frames))))
  }

  lemma SingleLineBullet(frame: string)
    requires '\n' !in frame
    ensures '\n' !in Bullet(frame)
  {
    var c := Chop(frame);
    ChopRemoves(frame);
    var b := Bullet(frame);
    assert b == "* " + c + "`";
    forall i | 0 <= i < |b|
      ensures b[i] != '\n'
    {
      if 2 <= i < 2 + |c| {
        assert b[i] == c[i - 2] == frame[i - 2];
      }
    }
  }

  /** The backtrace text reads, line by line: an empty line, the header, an
      empty line, then one bullet per kept frame in order (an empty line when
      no frame is kept). */
  lemma InspectBacktraceLines(policy: Policy, frames: seq<string>)
    requires !policy.Off?
    requires forall i :: 0 <= i < |frames| ==> '\n' !in frames[i]
    ensures Split(InspectBacktrace(policy, frames).value, '\n')
         == ["", "Backtrace:", ""]
          + (if KeptFrames(policy, frames) == [] then [""] else Bullets(KeptFrames(policy, frames)))
  {
    var kept := KeptFrames(policy, frames);
    var bullets := Bullets(kept);
    var body := Join("\n", bullets);
    SingleLineBullets(policy, frames);
    assert Split(body, '\n') == if kept == [] then [""] else bullets by {
      if kept != [] {
        SplitJoin(bullets, '\n');
      }
    }
    HeaderLines(body);
  }

  lemma SingleLineBullets(policy: Policy, frames: seq<string>)
    requires forall i :: 0 <= i < |frames| ==> '\n' !in frames[i]
    ensures forall i :: 0 <= i < |KeptFrames(policy, frames)| ==> '\n' !in Bullets(KeptFrames(policy, frames))[i]
  {
    var kept := KeptFrames(policy, frames);
    forall i | 0 <= i < |kept| ensures '\n' !in Bullets(kept)[i] {
      assert kept[i] in kept;
      if policy.Matching? {
        GrepMembers(policy.matches, frames, kept[i]);
      }
      assert kept[i] in frames;
      SingleLineBullet(kept[i]);
    }
  }

  lemma HeaderLines(body: string)
    ensures Split("\nBacktrace:\n\n" + body, '\n') == ["", "Backtrace:", ""] + Split(body, '\n')
  {
    var third := "" + "\n" + body;
    var second := "Backtrace:" + "\n" + third;
    SplitAfterLine("", body);
    SplitAfterLine("Backtrace:", third);
    SplitAfterLine("", second);
    HeaderText(body);
  }

  lemma HeaderText(body: string)
    ensures "\nBacktrace:\n\n" + body == "" + "\n" + ("Backtrace:" + "\n" + ("" + "\n" + body))
  {
  }

  /** The older Proxy#__display_backtrace: the bullets alone under true or a
      Regexp, and nothing under any other policy. */
  function DisplayBacktrace(policy: Policy, frames: seq<string>): (r: Option<string>)
    ensures r.Some? <==> policy.All? || policy.Matching?
  {
    match policy
    case All => Some(Join("\n", Bullets(frames)))
    case Matching(matches) => Some(Join("\n", Bullets(Grep(matches, frames))))
    case _ => None
  }

  predicate StartsWith(s: string, prefix: string) {
    |prefix| <= |s| && s[..|prefix|] == prefix
  }

  /** Whether needle occurs in s, which is what a literal Regexp tests. */
  predicate Contains(s: string, needle: string)
    decreases |s|
  {
    StartsWith(s, needle) || (s != [] && Contains(s[1..], needle))
  }

  /** The older Proxy's default `backtrace: /projects/`. */
  function ProjectsPattern(): Policy {
    Matching((frame: string) => Contains(frame, "projects"))
  }
}
