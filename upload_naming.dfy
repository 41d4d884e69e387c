/**
 * Where the server stores an uploaded image: `sanitizeFilename` keeps the
 * last element of the client's file name (Go `filepath.Base`, with `/` as
 * the separator) and replaces every space with `_`; the file goes to
 * `uploads/<userID>_<sanitized name>`, cleaned by `filepath.Clean`.
 */
module UploadNaming {
  import opened Strings
  import opened Decimal

  /** `p` is made of separators only (and is not empty). */
  predicate AllSlashes(p: string) {
    p != [] && forall i :: 0 <= i < |p| ==> p[i] == '/'
  }

  /** The first loop of `filepath.Base`: strip trailing separators. */
  function StripTrailingSlashes(p: string): string {
    if p != [] && p[|p| - 1] == '/' then StripTrailingSlashes(p[..|p| - 1]) else p
  }

  /** The text after the last separator of `p` (all of `p` when it has none). */
  function AfterLastSlash(p: string): string {
    if p == [] || p[|p| - 1] == '/' then [] else AfterLastSlash(p[..|p| - 1]) + [p[|p| - 1]]
  }

  /**
   * Go `filepath.Base` with `/` separators: `.` for the empty path, `/` for a
   * path of separators only, otherwise the last element once trailing
   * separators are stripped.
   */
  function Base(p: string): string {
    if p == [] then "."
    else
      var t := StripTrailingSlashes(p);
      if t == [] then "/" else AfterLastSlash(t)
  }

  /** `sanitizeFilename`: the base name with every space replaced by `_`. */
  function SanitizeFilename(name: string): string {
    ReplaceChar(Base(name), ' ', '_')
  }

  lemma {:induction false} StripTrailingSlashesSpec(p: string)
    ensures var t := StripTrailingSlashes(p);
      && |t| <= |p| && t == p[..|t|]
      && (t == [] || t[|t| - 1] != '/')
      && forall i :: |t| <= i < |p| ==> p[i] == '/'
    decreases |p|
  {
    if p != [] && p[|p| - 1] == '/' {
      StripTrailingSlashesSpec(p[..|p| - 1]);
    }
  }

  lemma {:induction false} AfterLastSlashSpec(p: string)
    ensures var e := AfterLastSlash(p);
      && |e| <= |p| && e == p[|p| - |e|..] && NoChar(e, '/')
      && (|e| < |p| ==> p[|p| - |e| - 1] == '/')
    decreases |p|
  {
    if p != [] && p[|p| - 1] != '/' {
      var q, c := p[..|p| - 1], p[|p| - 1];
      AfterLastSlashSpec(q);
      var e' := AfterLastSlash(q);
      var e := e' + [c];
      assert AfterLastSlash(p) == e;
      assert p == q + [c];
      assert p[|p| - |e|..] == q[|q| - |e'|..] + [c];
      forall i | 0 <= i < |e| ensures e[i] != '/' {
        if i < |e'| {
          assert e[i] == e'[i];
        }
      }
      if |e| < |p| {
        assert p[|p| - |e| - 1] == q[|q| - |e'| - 1];
      }
    }
  }

  /** Stripping trailing separators leaves nothing exactly when the path is separators only. */
  lemma StripAllSlashes(p: string)
    ensures AllSlashes(p) <==> p != [] && StripTrailingSlashes(p) == []
  {
    StripTrailingSlashesSpec(p);
    var t := StripTrailingSlashes(p);
    if p != [] && t != [] {
      assert p[|t| - 1] == t[|t| - 1] != '/';
    }
  }

  /** `filepath.Base` gives `.` for the empty path and `/` exactly for a path of separators only. */
  lemma BaseSpecial(p: string)
    ensures p == [] ==> Base(p) == "."
    ensures AllSlashes(p) <==> Base(p) == "/"
  {
    StripAllSlashes(p);
    var t := StripTrailingSlashes(p);
    if p != [] && t != [] {
      AfterLastSlashSpec(t);
      var b := AfterLastSlash(t);
      assert b == [] || b[0] != '/';
    }
  }

  /** Otherwise `filepath.Base` gives the last element of the path once trailing separators are stripped. */
  lemma BaseIsLastElement(p: string)
    requires p != [] && !AllSlashes(p)
    ensures Base(p) == AfterLastSlash(StripTrailingSlashes(p)) && StripTrailingSlashes(p) != []
  {
    StripAllSlashes(p);
  }

  /**
   * That element is not empty and has no separator; it ends the path up to
   * trailing separators, and is preceded there by a separator or by nothing.
   */
  lemma BaseElement(p: string)
    requires p != [] && !AllSlashes(p)
    ensures var t, b := StripTrailingSlashes(p), Base(p);
      && b != [] && NoChar(b, '/')
      && |b| <= |t| <= |p| && t == p[..|t|] && b == t[|t| - |b|..]
      && (|b| < |t| ==> t[|t| - |b| - 1] == '/')
      && forall i :: |t| <= i < |p| ==> p[i] == '/'
  {
    BaseIsLastElement(p);
    var t := StripTrailingSlashes(p);
    StripTrailingSlashesSpec(p);
    AfterLastSlashSpec(t);
    var b := AfterLastSlash(t);
    assert b != [] by {
      assert t[|t| - 1] != '/';
    }
  }

  /** `filepath.Base` leaves a non-empty name without separators as it is. */
  lemma BaseOfElement(p: string)
    requires p != [] && NoChar(p, '/')
    ensures Base(p) == p
  {
    assert !AllSlashes(p) by {
      assert p[0] != '/';
    }
    BaseElement(p);
  }

  /** `strings.ReplaceAll` changes nothing when the character it replaces does not occur. */
  lemma ReplaceAbsent(s: string, from: char, to: char)
    requires NoChar(s, from)
    ensures ReplaceChar(s, from, to) == s
  {
  }

  /**
   * A sanitized name is never empty and has no space, and it has no
   * separator unless it is `/` itself, which happens exactly for a name made
   * of separators only.
   */
  lemma SanitizeShape(name: string)
    ensures var r := SanitizeFilename(name);
      && r != [] && NoChar(r, ' ')
      && (r == "/" <==> AllSlashes(name))
      && (r != "/" ==> NoChar(r, '/'))
  {
    BaseSpecial(name);
    var b := Base(name);
    var r := SanitizeFilename(name);
    if b == "/" {
      assert r == "/";
    } else if name == [] {
      assert r == ".";
    } else {
      BaseElement(name);
      assert r != "/" by {
        assert r[0] != '/';
      }
    }
  }

  /** Sanitizing a sanitized name changes nothing. */
  lemma SanitizeIdempotent(name: string)
    ensures SanitizeFilename(SanitizeFilename(name)) == SanitizeFilename(name)
  {
    var r := SanitizeFilename(name);
    SanitizeShape(name);
    if r == "/" {
      assert StripTrailingSlashes(r) == [] by {
        assert r[..0] == [];
      }
    } else {
      BaseOfElement(r);
    }
    ReplaceAbsent(r, ' ', '_');
  }

  /**
   * A sanitized name is made of the name's own characters, spaces turned
   * into `_`, except for the `.` and `/` that `filepath.Base` answers for the
   * empty and the all-separators name: whatever `ok` holds of all of those
   * holds of every character of the result.
   */
  lemma SanitizeChars(name: string, ok: char -> bool)
    requires ok('.') && ok('/') && ok('_')
    requires forall i :: 0 <= i < |name| ==> name[i] == ' ' || ok(name[i])
    ensures forall i :: 0 <= i < |SanitizeFilename(name)| ==> ok(SanitizeFilename(name)[i])
  {
    var b := Base(name);
    BaseSpecial(name);
    if name != [] && !AllSlashes(name) {
      BaseElement(name);
      var t := StripTrailingSlashes(name);
      forall i | 0 <= i < |b| ensures b[i] == ' ' || ok(b[i]) {
        assert b[i] == t[|t| - |b| + i] == name[|t| - |b| + i];
      }
    } else if name == [] {
      assert b == "." && b[0] == '.';
    } else {
      assert b == "/" && b[0] == '/';
    }
  }

  /** `fmt.Sprintf("uploads/%d_%s", userID, sanitizeFilename(header.Filename))`. */
  function UploadName(userId: int, fileName: string): string {
    "uploads/" + FormatInt(userId) + "_" + SanitizeFilename(fileName)
  }

  /**
   * `filepath.Clean` on an upload name. Such a name has no doubled separator
   * and no `.` or `..` element (the element after `uploads/` always holds the
   * `_`), so all `Clean` can change is a trailing separator.
   */
  function CleanUploadName(name: string): string {
    if name != [] && name[|name| - 1] == '/' then name[..|name| - 1] else name
  }

  /** The path the image is written to and stored under: `filepath.Clean(filename)`. */
  function UploadPath(userId: int, fileName: string): string {
    CleanUploadName(UploadName(userId, fileName))
  }

  /** The element after the directory of a cleaned `<dir><id>_<name>`, for an id and a name without separators (or the name `/`). */
  lemma CleanedElement(dir: string, id: string, r: string)
    requires NoChar(id, '/') && r != [] && (r == "/" || NoChar(r, '/'))
    ensures var path, element := CleanUploadName(dir + id + "_" + r), if r == "/" then id + "_" else id + "_" + r;
      && path == dir + element
      && NoChar(element, '/') && |element| > |id| && element[..|id| + 1] == id + "_"
  {
    var element := if r == "/" then id + "_" else id + "_" + r;
    var name := dir + id + "_" + r;
    if r == "/" {
      assert name == dir + element + "/";
    } else {
      assert name == dir + element;
      assert name[|name| - 1] == r[|r| - 1];
    }
    assert element[..|id| + 1] == id + "_";
    forall i | 0 <= i < |element| ensures element[i] != '/' {
      if i < |id| {
        assert element[i] == id[i];
      } else if i > |id| {
        assert element[i] == r[i - |id| - 1];
      }
    }
  }

  /** `%d` never writes a separator. */
  lemma FormatIntNoSlash(n: int)
    ensures NoChar(FormatInt(n), '/')
  {
    FormatIntShape(n);
    var id := FormatInt(n);
    forall i | 0 <= i < |id| ensures id[i] != '/' {
      assert i == 0 || IsDigit(id[i]);
    }
  }

  /**
   * The upload lands directly inside `uploads/`: the path is `uploads/`
   * followed by one element without separators that starts with the user id
   * and `_` and is therefore neither `.` nor `..`. The element ends with the
   * sanitized name, except for a name of separators only, whose `/` is
   * cleaned away.
   */
  lemma UploadPathInUploads(userId: int, fileName: string)
    ensures var path, id := UploadPath(userId, fileName), FormatInt(userId);
      && |path| > 8 && path[..8] == "uploads/"
      && var element := path[8..];
      && NoChar(element, '/') && element != "." && element != ".."
      && |element| > |id| && element[..|id| + 1] == id + "_"
      && (AllSlashes(fileName) ==> element == id + "_")
      && (!AllSlashes(fileName) ==> element == id + "_" + SanitizeFilename(fileName))
  {
    var id, r := FormatInt(userId), SanitizeFilename(fileName);
    SanitizeShape(fileName);
    FormatIntNoSlash(userId);
    CleanedElement("uploads/", id, r);
    var element := if r == "/" then id + "_" else id + "_" + r;
    assert element[|id|] == '_';
    assert element != "." && element != ".." by {
      if |id| == 0 {
        assert element[0] == '_';
      } else {
        assert |element| >= 2;
      }
    }
  }
}
