/** Values shared by every part of the model: optional values, JavaScript
    errors, the entry list and the bundler's compiled modules, and the three
    string tests the source uses (`startsWith`, `endsWith`, `includes`). */
module Common {

  /** `None` stands for JavaScript's `null` / `undefined`. */
  datatype Option<+T> = None | Some(value: T)

  /** A thrown or reported JavaScript error, represented by what its
      `toString()` renders. Every `Failure` is truthy. */
  datatype Failure = Failure(text: string)

  /** One logical function: the file it is compiled from and the path it is
      served under. */
  datatype Entry = Entry(file: string, requestPath: string)

  /** One module in the bundler's report: a path-like identifier and its
      compiled source text. */
  datatype CompiledModule = CompiledModule(identifier: string, source: string)

  /** JavaScript's `s.startsWith(p)`. */
  predicate StartsWith(s: string, p: string)
  {
    |p| <= |s| && s[..|p|] == p
  }

  /** JavaScript's `s.endsWith(p)`. */
  predicate EndsWith(s: string, p: string)
  {
    |p| <= |s| && s[|s| - |p|..] == p
  }

  /** Ending in one or two slashes, stated on the last characters. */
  lemma EndsWithSlashes(s: string)
    ensures EndsWith(s, "/") <==> |s| >= 1 && s[|s| - 1] == '/'
    ensures EndsWith(s, "//") <==> |s| >= 2 && s[|s| - 2] == '/' && s[|s| - 1] == '/'
  {
    if |s| >= 1 { assert s[|s| - 1..] == [s[|s| - 1]]; }
    if |s| >= 2 { assert s[|s| - 2..] == [s[|s| - 2], s[|s| - 1]]; }
  }

  /** `sub` occurs in `s` starting at index `i`. */
  predicate OccursAt(s: string, sub: string, i: int)
  {
    0 <= i && i + |sub| <= |s| && s[i..i + |sub|] == sub
  }

  /** JavaScript's `s.includes(sub)`: `sub` occurs somewhere in `s`. */
  predicate Contains(s: string, sub: string)
  {
    exists i :: 0 <= i <= |s| && OccursAt(s, sub, i)
  }
}
