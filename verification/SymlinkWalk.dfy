/** Following a path through every link in it to the first place that does not exist. */
module SymlinkWalk {
  /** A path as its components; the root is the component `/` and can only come first. */
  type Path = seq<string>

  datatype Node = Missing | Plain | Link(target: Path)

  type FileSystem = Path -> Node

  const HOPS: nat := 64

  /** No root component past the first. */
  predicate Normal(p: Path) {
    forall i :: 0 < i < |p| ==> p[i] != "/"
  }

  predicate Relative(p: Path) {
    forall i :: 0 <= i < |p| ==> p[i] != "/"
  }

  ghost predicate WellFormed(fs: FileSystem) {
    forall p: Path :: fs(p).Link? ==> Normal(fs(p).target)
  }

  function Push(current: Path, part: string): Path {
    if part == "/" then ["/"] else current + [part]
  }

  predicate IsAbsolute(p: Path) {
    p != [] && p[0] == "/"
  }

  function Join(base: Path, target: Path): Path {
    if IsAbsolute(target) then target else base + target
  }

  /** How a walk ends: all the way through, at something missing, or at one link too many. */
  datatype Resolution = Resolved(path: Path) | Absent(path: Path) | TooManyLinks(path: Path)

  /** Resolution in place: a link's target is read from the directory that holds the link, without starting over. */
  function Resolve(fs: FileSystem, base: Path, rest: Path, hops: nat): Resolution
    decreases hops, |rest|
  {
    if rest == [] then Resolved(base)
    else
      var p := Push(base, rest[0]);
      match fs(p)
      case Missing => Absent(p)
      case Plain => Resolve(fs, p, rest[1..], hops)
      case Link(target) =>
        if hops == 0 then TooManyLinks(p)
        else Resolve(fs, if IsAbsolute(target) then [] else p[..|p| - 1], target + rest[1..], hops - 1)
  }

  /** Every step on the way to `p` exists and is no link. */
  predicate Walked(fs: FileSystem, p: Path) {
    forall i :: 1 <= i <= |p| ==> fs(p[..i]).Plain?
  }

  lemma WalkedPush(fs: FileSystem, base: Path, part: string)
    requires Walked(fs, base) && (part == "/" || fs(Push(base, part)) == fs(base + [part]))
    requires fs(Push(base, part)).Plain?
    ensures Walked(fs, Push(base, part))
  {
    var p := Push(base, part);
    forall i | 1 <= i <= |p| ensures fs(p[..i]).Plain? {
      if i == |p| {
        assert p[..i] == p;
      } else {
        assert p[..i] == base[..i];
      }
    }
  }

  lemma WalkedParent(fs: FileSystem, base: Path, part: string)
    requires Walked(fs, base)
    ensures Walked(fs, Push(base, part)[..|Push(base, part)| - 1])
  {
    var p := Push(base, part);
    if part == "/" {
      assert p[..|p| - 1] == [];
    } else {
      assert p[..|p| - 1] == base;
    }
  }

  /**
   * What the answer means: a path free of links, its first missing piece, or a link with nothing but real directories
   * above it.
   */
  lemma {:induction false} ResolveIsFaithful(fs: FileSystem, base: Path, rest: Path, hops: nat)
    requires Walked(fs, base)
    ensures match Resolve(fs, base, rest, hops)
            case Resolved(p) => Walked(fs, p)
            case Absent(p) => p != [] && fs(p).Missing? && Walked(fs, p[..|p| - 1])
            case TooManyLinks(p) => p != [] && fs(p).Link? && Walked(fs, p[..|p| - 1])
    decreases hops, |rest|
  {
    if rest != [] {
      var p := Push(base, rest[0]);
      WalkedParent(fs, base, rest[0]);
      match fs(p)
      case Missing =>
      case Plain =>
        WalkedPush(fs, base, rest[0]);
        ResolveIsFaithful(fs, p, rest[1..], hops);
      case Link(target) =>
        if hops > 0 {
          ResolveIsFaithful(fs, if IsAbsolute(target) then [] else p[..|p| - 1], target + rest[1..], hops - 1);
        }
    }
  }

  /** The bound only ever cuts a walk short: any answer below it is the answer under every larger bound. */
  lemma {:induction false} MoreHopsSameAnswer(fs: FileSystem, base: Path, rest: Path, hops: nat, more: nat)
    requires !Resolve(fs, base, rest, hops).TooManyLinks? && hops <= more
    ensures Resolve(fs, base, rest, more) == Resolve(fs, base, rest, hops)
    decreases hops, |rest|
  {
    if rest != [] {
      var p := Push(base, rest[0]);
      match fs(p)
      case Missing =>
      case Plain => MoreHopsSameAnswer(fs, p, rest[1..], hops, more);
      case Link(target) =>
        MoreHopsSameAnswer(fs, if IsAbsolute(target) then [] else p[..|p| - 1], target + rest[1..], hops - 1, more - 1);
    }
  }

  /** Starting over from the root of an already walked path leads straight back to it, without following a link. */
  lemma {:induction false} StartingOverIsHarmless(fs: FileSystem, base: Path, i: nat, rest: Path, hops: nat)
    requires i <= |base| && Walked(fs, base) && Normal(base)
    ensures Resolve(fs, base[..i], base[i..] + rest, hops) == Resolve(fs, base, rest, hops)
    decreases |base| - i
  {
    if i == |base| {
      assert base[..i] == base && base[i..] + rest == rest;
    } else {
      var todo := base[i..] + rest;
      assert todo[0] == base[i] && todo[1..] == base[i + 1..] + rest;
      assert Push(base[..i], base[i]) == base[..i + 1];
      StartingOverIsHarmless(fs, base, i + 1, rest, hops);
    }
  }

  /** Put a path's components in front of the ones still to walk, last one first. */
  method Prepend(remaining: Path, path: Path) returns (r: Path)
    ensures r == path + remaining
  {
    r := remaining;
    var i := |path|;
    while i > 0
      invariant 0 <= i <= |path|
      invariant r == path[i..] + remaining
    {
      i := i - 1;
      r := [path[i]] + r;
    }
  }

  /** From here the walk has the same answer as from the start. */
  ghost predicate OnTheWay(fs: FileSystem, path: Path, current: Path, remaining: Path, hops: nat) {
    && Walked(fs, current) && InFront(current, remaining)
    && Resolve(fs, current, remaining, hops) == Resolve(fs, [], path, HOPS)
  }

  /** The restarting walk, bounded because links can loop, gives the answer of resolution in place. */
  method FirstMissing(fs: FileSystem, path: Path) returns (current: Path)
    requires WellFormed(fs) && Normal(path)
    ensures current == Resolve(fs, [], path, 64).path
  {
    var remaining, hops := path, 0;
    current := [];
    while remaining != []
      invariant hops <= HOPS && OnTheWay(fs, path, current, remaining, HOPS - hops)
      decreases HOPS - hops, |remaining|
    {
      ghost var before, todo := current, remaining;
      var part := remaining[0];
      remaining := remaining[1..];
      current := Push(current, part);
      match fs(current) {
        case Link(target) =>
          if hops < HOPS {
            LinkFollowed(fs, path, before, todo, target, HOPS - hops);
            remaining := Prepend(remaining, Join(current[..|current| - 1], target));
            current := [];
            hops := hops + 1;
          } else {
            StopsHere(fs, path, before, todo, HOPS - hops);
            return;
          }
        case Missing =>
          StopsHere(fs, path, before, todo, HOPS - hops);
          return;
        case Plain =>
          PlainPassed(fs, path, before, todo, HOPS - hops);
      }
    }
  }

  lemma StopsHere(fs: FileSystem, path: Path, base: Path, todo: Path, hops: nat)
    requires todo != [] && OnTheWay(fs, path, base, todo, hops)
    requires fs(Push(base, todo[0])).Missing? || (fs(Push(base, todo[0])).Link? && hops == 0)
    ensures Resolve(fs, [], path, 64).path == Push(base, todo[0])
  {
  }

  lemma PlainPassed(fs: FileSystem, path: Path, base: Path, todo: Path, hops: nat)
    requires todo != [] && OnTheWay(fs, path, base, todo, hops) && fs(Push(base, todo[0])).Plain?
    ensures OnTheWay(fs, path, Push(base, todo[0]), todo[1..], hops)
  {
    assert [todo[0]] + todo[1..] == todo;
    PushIsPlain(base, todo[0], todo[1..]);
    WalkedPush(fs, base, todo[0]);
  }

  /** One hop: the link's target goes in front of the rest, and the walk starts over. */
  lemma LinkFollowed(fs: FileSystem, path: Path, base: Path, todo: Path, target: Path, hops: nat)
    requires WellFormed(fs) && todo != [] && OnTheWay(fs, path, base, todo, hops)
    requires fs(Push(base, todo[0])) == Link(target) && hops > 0
    ensures var p := Push(base, todo[0]);
            OnTheWay(fs, path, [], Join(p[..|p| - 1], target) + todo[1..], hops - 1)
  {
    var p := Push(base, todo[0]);
    assert [todo[0]] + todo[1..] == todo;
    PushIsPlain(base, todo[0], todo[1..]);
    WalkedParent(fs, base, todo[0]);
    assert Normal(fs(p).target);
    Rejoin(fs, p[..|p| - 1], target, todo[1..], hops - 1);
  }

  /** Only the very first component of the two together may be the root. */
  predicate InFront(current: Path, remaining: Path) {
    Normal(current) && if current == [] then Normal(remaining) else Relative(remaining)
  }

  lemma PushIsPlain(base: Path, part: string, rest: Path)
    requires InFront(base, [part] + rest)
    ensures Push(base, part) == base + [part] && Normal(base) && Relative(rest)
    ensures InFront(Push(base, part), rest)
  {
    var todo := [part] + rest;
    assert todo[0] == part && todo[1..] == rest;
    forall i | 0 <= i < |rest| ensures rest[i] != "/" {
      assert todo[i + 1] == rest[i];
    }
  }

  lemma Regroup(a: Path, b: Path, c: Path)
    ensures a + (b + c) == (a + b) + c
  {
  }

  lemma NormalAppend(a: Path, b: Path)
    requires Normal(a) && (if a == [] then Normal(b) else Relative(b))
    ensures Normal(a + b)
  {
  }

  lemma Rejoin(fs: FileSystem, base: Path, target: Path, rest: Path, hops: nat)
    requires Walked(fs, base) && Normal(base) && Normal(target) && Relative(rest)
    ensures InFront([], Join(base, target) + rest)
    ensures Resolve(fs, [], Join(base, target) + rest, hops)
         == Resolve(fs, if IsAbsolute(target) then [] else base, target + rest, hops)
  {
    NormalAppend(target, rest);
    if !IsAbsolute(target) {
      assert Relative(target);
      NormalAppend(base, target);
      NormalAppend(base + target, rest);
      StartingOverIsHarmless(fs, base, 0, target + rest, hops);
      Regroup(base, target, rest);
      assert base[..0] == [] && base[0..] == base;
    }
  }
}
