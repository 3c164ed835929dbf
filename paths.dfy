/**
  The parts of System.IO.Path the two front ends use, with Windows separator
  rules ('\' and '/' both separate directories): `GetExtension`,
  `GetFileName`, `IsPathRooted` and `Combine`.
*/
module Paths {
  import opened Wrappers
  import opened Text

  predicate IsSeparator(c: char) {
    c == '\\' || c == '/'
  }

  /** A character that may follow the dot of an extension. */
  predicate IsExtensionChar(c: char) {
    c != '.' && !IsSeparator(c)
  }

  predicate IsExtensionBody(e: string) {
    e != [] && forall j :: 0 <= j < |e| ==> IsExtensionChar(e[j])
  }

  /** Scanning `p[..i]` from the right: the dot that starts the extension, or
      None when a separator or the start comes first. */
  function ExtensionStart(p: string, i: nat): (k: Option<nat>)
    requires i <= |p|
    ensures k.Some? ==> k.value < i && p[k.value] == '.'
    ensures k.Some? ==> forall j :: k.value < j < i ==> IsExtensionChar(p[j])
  {
    if i == 0 then None
    else if p[i - 1] == '.' then Some(i - 1)
    else if IsSeparator(p[i - 1]) then None
    else ExtensionStart(p, i - 1)
  }

  lemma {:induction false} ExtensionStartFinds(p: string, i: nat, k: nat)
    requires k < i <= |p| && p[k] == '.'
    requires forall j :: k < j < i ==> IsExtensionChar(p[j])
    ensures ExtensionStart(p, i) == Some(k)
    decreases i
  {
    if i - 1 != k {
      ExtensionStartFinds(p, i - 1, k);
    }
  }

  /** `Path.GetExtension(path)` for a non-null path: the last dot and what
      follows it, or "" when there is none or the dot is the last character. */
  function GetExtension(p: string): (r: string)
    ensures r != [] ==> EndsWith(p, r) && r[0] == '.' && IsExtensionBody(r[1..])
  {
    match ExtensionStart(p, |p|)
    case None => ""
    case Some(k) => if k == |p| - 1 then "" else p[k..]
  }

  /** The converse: a path that ends in a dot and an extension body has
      exactly that extension. */
  lemma GetExtensionOfName(stem: string, e: string)
    requires IsExtensionBody(e)
    ensures GetExtension(stem + "." + e) == "." + e
  {
    var p := stem + "." + e;
    forall j | |stem| < j < |p| ensures IsExtensionChar(p[j]) {
      assert p[j] == e[j - |stem| - 1];
    }
    ExtensionStartFinds(p, |p|, |stem|);
    assert p[|stem|..] == "." + e;
  }

  /** `TrimStart(c)`: drops every leading `c`. */
  function TrimStartChar(s: string, c: char): (r: string)
    ensures r != [] ==> r[0] != c
  {
    if s != [] && s[0] == c then TrimStartChar(s[1..], c) else s
  }

  /** What `TrimStart(c)` drops are leading `c`s, and the rest is kept. */
  lemma {:induction false} TrimStartCharDropsPrefix(s: string, c: char)
    ensures var r := TrimStartChar(s, c);
      EndsWith(s, r) && forall j :: 0 <= j < |s| - |r| ==> s[j] == c
  {
    if s != [] && s[0] == c {
      TrimStartCharDropsPrefix(s[1..], c);
      var r := TrimStartChar(s, c);
      assert s[1..][|s| - 1 - |r|..] == s[|s| - |r|..];
    }
  }

  /** `Path.GetFileName(path)`: what follows the last separator. The volume
      root is not treated apart, so a drive-relative "C:foo" keeps its "C:";
      the listings this is applied to hold full paths, where the two agree. */
  function GetFileName(p: string): (r: string)
    ensures EndsWith(p, r)
    ensures forall j :: 0 <= j < |r| ==> !IsSeparator(r[j])
    ensures |r| == |p| || IsSeparator(p[|p| - |r| - 1])
  {
    if p == [] || IsSeparator(p[|p| - 1]) then ""
    else GetFileName(p[..|p| - 1]) + [p[|p| - 1]]
  }

  /** Whatever follows a separator (or the start) and holds none is the file name. */
  lemma {:induction false} GetFileNameAfterSeparator(dir: string, name: string)
    requires dir == [] || IsSeparator(dir[|dir| - 1])
    requires forall j :: 0 <= j < |name| ==> !IsSeparator(name[j])
    ensures GetFileName(dir + name) == name
  {
    if name != [] {
      var p, init, last := dir + name, name[..|name| - 1], name[|name| - 1];
      assert p[..|p| - 1] == dir + init && p[|p| - 1] == last;
      GetFileNameAfterSeparator(dir, init);
      assert GetFileName(p) == init + [last];
      assert init + [last] == name;
    } else {
      assert dir + name == dir;
    }
  }

  predicate IsAsciiLetter(c: char) {
    'a' <= c <= 'z' || 'A' <= c <= 'Z'
  }

  /** `Path.IsPathRooted` on Windows. */
  predicate IsPathRooted(p: string) {
    (|p| >= 1 && IsSeparator(p[0])) || (|p| >= 2 && IsAsciiLetter(p[0]) && p[1] == ':')
  }

  /** `Path.Combine(first, second)` for non-null arguments. */
  function Combine(first: string, second: string): (r: string)
    ensures first != [] && second != [] && !IsPathRooted(second) ==>
      StartsWith(r, first) && EndsWith(r, second) && |first| + |second| <= |r| <= |first| + |second| + 1
  {
    if first == [] then second
    else if second == [] then first
    else if IsPathRooted(second) then second
    else if IsSeparator(first[|first| - 1]) || IsSeparator(second[0]) then first + second
    else first + "\\" + second
  }

  /** Combining a folder with a plain file name gives a path whose file name
      is that name. */
  lemma CombineKeepsFileName(folder: string, name: string)
    requires name != [] && forall j :: 0 <= j < |name| ==> !IsSeparator(name[j])
    ensures GetFileName(Combine(folder, name)) == name
  {
    if folder == [] {
      GetFileNameAfterSeparator([], name);
      assert [] + name == name;
    } else if IsSeparator(folder[|folder| - 1]) {
      GetFileNameAfterSeparator(folder, name);
    } else {
      GetFileNameAfterSeparator(folder + "\\", name);
    }
  }
}
