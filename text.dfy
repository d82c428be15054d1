/** Strings, paths and the character classes the scanners' patterns use. */
module Text {

  datatype Option<T> = None | Some(value: T)

  /** A file path as the scanners report it. */
  type Path = string

  /** Ruby's `\s`: space, tab, line feed, vertical tab, form feed, carriage return. */
  predicate IsSpace(c: char)
  {
    c == ' ' || c == '\t' || c == '\n' || c == '\U{0B}' || c == '\U{0C}' || c == '\r'
  }

  /** `[a-zA-Z_]`: the first character of a class name. */
  predicate IsIdentStart(c: char)
  {
    ('a' <= c <= 'z') || ('A' <= c <= 'Z') || c == '_'
  }

  /** Ruby's `\w` on ASCII text: `[a-zA-Z0-9_]`. */
  predicate IsWordChar(c: char)
  {
    IsIdentStart(c) || ('0' <= c <= '9')
  }

  predicate StartsWith(s: string, prefix: string)
  {
    |prefix| <= |s| && s[..|prefix|] == prefix
  }

  /** `xs.map { |x| f(x) }`: the string each element carries, in order. */
  function Strings<T>(xs: seq<T>, f: T -> string): (r: seq<string>)
    ensures |r| == |xs|
    ensures forall k :: 0 <= k < |xs| ==> r[k] == f(xs[k])
    ensures forall n :: n in r <==> exists k :: 0 <= k < |xs| && f(xs[k]) == n
  {
    seq(|xs|, k requires 0 <= k < |xs| => f(xs[k]))
  }

  /** `File.basename` of a path that does not end in a slash: the part after the last `/`. */
  function Basename(path: Path): (r: string)
    ensures |r| <= |path| && r == path[|path| - |r|..]
    ensures '/' !in r
    ensures |r| < |path| ==> path[|path| - |r| - 1] == '/'
  {
    if |path| == 0 || path[|path| - 1] == '/' then []
    else Basename(path[..|path| - 1]) + [path[|path| - 1]]
  }

  /** The basename of `<dir>/<name>` is `name` when `name` has no slash. */
  lemma {:induction false} BasenameAfterSlash(dir: string, name: string)
    requires '/' !in name
    ensures Basename(dir + "/" + name) == name
    decreases |name|
  {
    var path := dir + "/" + name;
    if |name| == 0 {
      assert path[|path| - 1] == '/';
    } else {
      var init := name[..|name| - 1];
      assert path[..|path| - 1] == dir + "/" + init;
      assert path[|path| - 1] == name[|name| - 1];
      assert '/' !in init by {
        forall m | 0 <= m < |init| ensures init[m] != '/' {
          assert init[m] == name[m];
        }
      }
      BasenameAfterSlash(dir, init);
      assert init + [name[|name| - 1]] == name;
    }
  }
}
