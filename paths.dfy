/** D-Bus name helpers: dotted interface names and slashed object paths. */
module Paths {

  /** `s.replace(from, to)` for single characters. */
  function ReplaceChar(s: string, from: char, to: char): (r: string)
    ensures |r| == |s|
    ensures forall i :: 0 <= i < |s| ==> r[i] == (if s[i] == from then to else s[i])
  {
    if s == [] then [] else [if s[0] == from then to else s[0]] + ReplaceChar(s[1..], from, to)
  }

  /** `dot_notation`: every `/` becomes `.`. */
  function DotNotation(name: string): (r: string)
    ensures |r| == |name|
    ensures forall i :: 0 <= i < |name| ==> r[i] == (if name[i] == '/' then '.' else name[i])
  {
    ReplaceChar(name, '/', '.')
  }

  /** `slash_notation`: every `.` becomes `/`. */
  function SlashNotation(name: string): (r: string)
    ensures |r| == |name|
    ensures forall i :: 0 <= i < |name| ==> r[i] == (if name[i] == '.' then '/' else name[i])
  {
    ReplaceChar(name, '.', '/')
  }

  /** `'.'.join(parts)`. */
  function JoinDots(parts: seq<string>): string
  {
    if |parts| == 0 then ""
    else if |parts| == 1 then parts[0]
    else parts[0] + "." + JoinDots(parts[1..])
  }

  /**
   * `join_path(*paths)`: the dot-normalised segments joined with `.`.  The result is a dotted
   * name: no `/` survives, whatever the segments held; a single segment is only normalised.
   */
  function JoinPath(paths: seq<string>): (r: string)
    ensures NoChar(r, '/')
    ensures |paths| == 0 ==> r == ""
    ensures |paths| == 1 ==> r == DotNotation(paths[0])
  {
    var parts := seq(|paths|, i requires 0 <= i < |paths| => DotNotation(paths[i]));
    JoinDotsNoChar(parts, '/');
    JoinDots(parts)
  }

  /** `extrapolate_service_path`: the object path a bus name is published under, `/` and the name in slash notation. */
  function ExtrapolateServicePath(serviceName: string): (r: string)
    ensures |r| > 0 && r[0] == '/'
    ensures r[1..] == SlashNotation(serviceName)
  {
    "/" + ReplaceChar(serviceName, '.', '/')
  }

  predicate NoChar(s: string, c: char)
  {
    forall i :: 0 <= i < |s| ==> s[i] != c
  }

  lemma DotNotationSpec(name: string)
    ensures |DotNotation(name)| == |name|
    ensures NoChar(DotNotation(name), '/')
    ensures DotNotation(DotNotation(name)) == DotNotation(name)
    ensures forall i :: 0 <= i < |name| && name[i] != '/' ==> DotNotation(name)[i] == name[i]
  {
  }

  lemma SlashNotationSpec(name: string)
    ensures |SlashNotation(name)| == |name|
    ensures NoChar(SlashNotation(name), '.')
    ensures SlashNotation(SlashNotation(name)) == SlashNotation(name)
    ensures forall i :: 0 <= i < |name| && name[i] != '.' ==> SlashNotation(name)[i] == name[i]
  {
  }

  /** Converting one way and back only depends on the original through its normal form. */
  lemma NotationsRoundTrip(name: string)
    ensures DotNotation(SlashNotation(name)) == DotNotation(name)
    ensures SlashNotation(DotNotation(name)) == SlashNotation(name)
  {
  }

  /** A name already in one notation is left alone by that notation's normaliser. */
  lemma NotationFixpoints(name: string)
    ensures NoChar(name, '/') <==> DotNotation(name) == name
    ensures NoChar(name, '.') <==> SlashNotation(name) == name
  {
    if DotNotation(name) == name {
      forall i | 0 <= i < |name| ensures name[i] != '/' {
        assert DotNotation(name)[i] == name[i];
      }
    }
    if SlashNotation(name) == name {
      forall i | 0 <= i < |name| ensures name[i] != '.' {
        assert SlashNotation(name)[i] == name[i];
      }
    }
  }

  lemma {:induction false} JoinDotsNoChar(parts: seq<string>, c: char)
    requires c != '.'
    requires forall i :: 0 <= i < |parts| ==> NoChar(parts[i], c)
    ensures NoChar(JoinDots(parts), c)
  {
    if |parts| > 1 {
      JoinDotsNoChar(parts[1..], c);
      var tail := JoinDots(parts[1..]);
      assert JoinDots(parts) == parts[0] + "." + tail;
      forall i | 0 <= i < |JoinDots(parts)| ensures JoinDots(parts)[i] != c {
        if i < |parts[0]| {
        } else if i == |parts[0]| {
        } else {
          assert JoinDots(parts)[i] == tail[i - |parts[0]| - 1];
        }
      }
    }
  }

  /** Joining a namespace with a class name, as the interface decorator does. */
  lemma JoinPathTwo(namespace: string, name: string)
    ensures JoinPath([namespace, name]) == DotNotation(namespace) + "." + DotNotation(name)
    ensures |JoinPath([namespace, name])| == |namespace| + 1 + |name|
  {
    var parts := seq(2, i requires 0 <= i < 2 => DotNotation([namespace, name][i]));
    assert parts == [DotNotation(namespace), DotNotation(name)];
    assert parts[1..] == [DotNotation(name)];
    assert JoinDots(parts[1..]) == DotNotation(name);
    assert JoinPath([namespace, name]) == JoinDots(parts);
  }

  /** The object path is one character longer than the bus name and holds no `.`. */
  lemma ExtrapolateServicePathSpec(serviceName: string)
    ensures |ExtrapolateServicePath(serviceName)| == |serviceName| + 1
    ensures NoChar(ExtrapolateServicePath(serviceName), '.')
  {
    var r := ExtrapolateServicePath(serviceName);
    forall i | 0 <= i < |r| ensures r[i] != '.' {
      if i > 0 {
        assert r[i] == ReplaceChar(serviceName, '.', '/')[i - 1];
      }
    }
  }
}
