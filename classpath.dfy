/**
 * `appendClasspath(List<String>)`: each configured entry is rewritten (home
 * directory, war location, trailing separator), turned into a URL and appended
 * to the system class loader, in order.
 */
module Classpath {
  import opened Wrappers
  import opened Failures
  import opened Settings
  import Text
  import UnixFiles

  /** `File.separator` on Unix. */
  const Separator: string := "/"
  /** The system property holding the war's location, set when the launcher class is loaded. */
  const WarLocationProperty: string := "com.xlson.standalonewar.warLocation"
  /** The placeholder text an entry uses for the war's directory. */
  const WarLocationPlaceholder: string := "${com.xlson.standalonewar.warLocation}"
  /** The regular expression `~`. */
  const TildePattern: seq<Text.Atom> := [Text.Literal('~')]
  /** The regular expression `\$\{com.xlson.standalonewar.warLocation\}`: its unescaped dots are wildcards. */
  const WarLocationPattern: seq<Text.Atom> := Text.WithWildcards(WarLocationPlaceholder)

  /** `orElse(lhs, rhs)`: `lhs` unless it is null. */
  function OrElse<T>(lhs: Option<T>, rhs: T): (r: T)
    ensures lhs.Some? ==> r == lhs.value
    ensures lhs.None? ==> r == rhs
  {
    match lhs
    case Some(v) => v
    case None => rhs
  }

  /** The library calls the launcher relies on: whether `new URL(s)` accepts `s`, and `new File(p).toURI()` as text. */
  datatype Platform = Platform(isUrl: string -> bool, fileUri: string -> string)

  /** A class-path URL: the entry parsed as a URL, or the URL of the file it names. */
  datatype ClasspathUrl = ParsedUrl(spec: string) | FileUrl(uri: string)

  /** The home directory as a URI, or `None` when `user.home` is unset. */
  function HomeUri(sys: Layer, platform: Platform): (r: Option<string>)
    ensures r.Some? <==> "user.home" in sys
  {
    if "user.home" in sys then Some(platform.fileUri(sys["user.home"])) else None
  }

  /** The parent directory of the war location, or the empty string when it has none. */
  function WarParent(sys: Layer): string
  {
    OrElse(UnixFiles.Parent(Get(sys, WarLocationProperty, Some("")).value), "")
  }

  /** One entry rewritten: every `~` becomes the home URI, then every placeholder the war directory; a separator is appended. */
  function RewriteEntry(path: string, homeUri: string, warParent: string): (r: string)
    ensures |r| > 0 && r[|r| - 1] == '/'
  {
    Text.ReplaceAll(Text.ReplaceAll(path, TildePattern, homeUri), WarLocationPattern, warParent) + Separator
  }

  /** `new URL(path)`, or `new File(path).toURI().toURL()` when the former is malformed. */
  function UrlFor(path: string, platform: Platform): ClasspathUrl
  {
    if platform.isUrl(path) then ParsedUrl(path) else FileUrl(platform.fileUri(path))
  }

  /** The URLs of the entries: one per entry, in the entries' order. */
  function ClasspathUrls(paths: seq<string>, homeUri: string, warParent: string, platform: Platform)
    : (r: seq<ClasspathUrl>)
    ensures |r| == |paths|
    decreases |paths|
  {
    if paths == [] then []
    else ClasspathUrls(paths[..|paths| - 1], homeUri, warParent, platform)
         + [UrlFor(RewriteEntry(paths[|paths| - 1], homeUri, warParent), platform)]
  }

  /** The URL at each position is the one for the entry at that position. */
  lemma {:induction false} ClasspathUrlsEach(paths: seq<string>, homeUri: string, warParent: string, platform: Platform)
    ensures forall i :: 0 <= i < |paths| ==>
              ClasspathUrls(paths, homeUri, warParent, platform)[i] == UrlFor(RewriteEntry(paths[i], homeUri, warParent), platform)
    decreases |paths|
  {
    if paths != [] {
      var front := paths[..|paths| - 1];
      ClasspathUrlsEach(front, homeUri, warParent, platform);
      forall i | 0 <= i < |paths| - 1
        ensures ClasspathUrls(paths, homeUri, warParent, platform)[i] == UrlFor(RewriteEntry(paths[i], homeUri, warParent), platform)
      {
        assert front[i] == paths[i];
      }
    }
  }

  /** Appending the URL of one more entry extends the URLs of the entries before it. */
  lemma ClasspathUrlsExtend(paths: seq<string>, n: nat, homeUri: string, warParent: string, platform: Platform)
    requires n < |paths|
    ensures ClasspathUrls(paths[..n + 1], homeUri, warParent, platform)
            == ClasspathUrls(paths[..n], homeUri, warParent, platform)
               + [UrlFor(RewriteEntry(paths[n], homeUri, warParent), platform)]
  {
    assert paths[..n + 1][..n] == paths[..n];
  }

  /** What appending `paths` yields: the URLs, or the exception the first entry raises. */
  function ClasspathAppend(paths: seq<string>, sys: Layer, platform: Platform, reflective: bool)
    : Result<seq<ClasspathUrl>, Fatal>
  {
    if paths == [] then Ok([])
    else if HomeUri(sys, platform).None? then Err(NoUserHome)
    else if !reflective then Err(ClassLoaderRefused)
    else Ok(ClasspathUrls(paths, HomeUri(sys, platform).value, WarParent(sys), platform))
  }

  /** Appending succeeds exactly when there is nothing to append, or a home directory and a reflective loader; one URL per entry. */
  lemma ClasspathAppendOutcome(paths: seq<string>, sys: Layer, platform: Platform, reflective: bool)
    ensures var r := ClasspathAppend(paths, sys, platform, reflective);
            && (paths == [] ==> r == Ok([]))
            && (paths != [] ==> (r.Ok? <==> "user.home" in sys && reflective))
            && (r.Ok? ==> |r.value| == |paths|)
            && (r.Err? ==> r.error == (if "user.home" !in sys then NoUserHome else ClassLoaderRefused))
  {
  }

  /** The system class loader, extended by reflection; every URL appended stays for the life of the process. */
  class SystemClassLoader {
    /** Whether `URLClassLoader.addURL` can be reached by reflection. */
    const reflective: bool
    var urls: seq<ClasspathUrl>

    constructor (reflective: bool, urls: seq<ClasspathUrl>)
      ensures this.reflective == reflective && this.urls == urls
    {
      this.reflective := reflective;
      this.urls := urls;
    }

    /** `appendClasspath(URL)`. */
    method AddUrl(url: ClasspathUrl) returns (status: Outcome<Fatal>)
      modifies this
      ensures reflective ==> status == Pass && urls == old(urls) + [url]
      ensures !reflective ==> status == Fail(ClassLoaderRefused) && urls == old(urls)
    {
      if reflective {
        urls := urls + [url];
        status := Pass;
      } else {
        status := Fail(ClassLoaderRefused);
      }
    }
  }

  /** An entry with neither `~` nor placeholder only gains the trailing separator. */
  lemma RewritePlainEntry(path: string, homeUri: string, warParent: string)
    requires '~' !in path
    requires forall i :: 0 <= i < |path| ==> !Text.MatchesAt(path, WarLocationPattern, i)
    ensures RewriteEntry(path, homeUri, warParent) == path + "/"
  {
    Text.NoLiteralMatch(path, '~');
    Text.ReplaceAllWithoutMatch(path, TildePattern, homeUri);
    Text.ReplaceAllWithoutMatch(path, WarLocationPattern, warParent);
  }

  /** `~rest` becomes the home URI followed by `rest` and the separator. */
  lemma RewriteHomeEntry(rest: string, homeUri: string, warParent: string)
    requires '~' !in rest
    requires forall i :: 0 <= i < |homeUri + rest| ==> !Text.MatchesAt(homeUri + rest, WarLocationPattern, i)
    ensures RewriteEntry("~" + rest, homeUri, warParent) == homeUri + rest + "/"
  {
    Text.ReplaceCharConcat("~", rest, '~', homeUri);
    Text.ReplaceCharSingle('~', '~', homeUri);
    Text.NoLiteralMatch(rest, '~');
    Text.ReplaceAllWithoutMatch(rest, TildePattern, homeUri);
    Text.ReplaceAllWithoutMatch(homeUri + rest, WarLocationPattern, warParent);
  }

  lemma PlaceholderMatches(rest: string)
    ensures Text.MatchesAt(WarLocationPlaceholder + rest, WarLocationPattern, 0)
  {
    var s := WarLocationPlaceholder + rest;
    forall k | 0 <= k < |WarLocationPattern|
      ensures Text.AtomMatches(WarLocationPattern[k], s[0 + k])
    {
      assert s[k] == WarLocationPlaceholder[k];
    }
  }

  /** The placeholder followed by `rest` becomes the war directory followed by `rest` and the separator. */
  lemma RewriteWarEntry(rest: string, homeUri: string, warParent: string)
    requires '~' !in rest
    requires forall i :: 0 <= i < |rest| ==> !Text.MatchesAt(rest, WarLocationPattern, i)
    ensures RewriteEntry(WarLocationPlaceholder + rest, homeUri, warParent) == warParent + rest + "/"
  {
    var path := WarLocationPlaceholder + rest;
    assert '~' !in path by {
      assert forall i :: 0 <= i < |path| ==> path[i] == if i < |WarLocationPlaceholder| then WarLocationPlaceholder[i] else rest[i - |WarLocationPlaceholder|];
    }
    Text.NoLiteralMatch(path, '~');
    Text.ReplaceAllWithoutMatch(path, TildePattern, homeUri);
    PlaceholderMatches(rest);
    assert path == [] + WarLocationPlaceholder + rest;
    Text.ReplaceAllAtFirstMatch([], WarLocationPlaceholder, rest, WarLocationPattern, warParent);
    Text.ReplaceAllWithoutMatch(rest, WarLocationPattern, warParent);
  }

  /** No `~` survives the rewrite unless the home URI or the war directory brings one. */
  lemma RewriteRemovesTilde(path: string, homeUri: string, warParent: string)
    requires '~' !in homeUri && '~' !in warParent
    ensures '~' !in RewriteEntry(path, homeUri, warParent)
  {
    Text.ReplaceCharRemovesIt(path, '~', homeUri);
    Text.ReplaceAllKeepsOut(Text.ReplaceAll(path, TildePattern, homeUri), WarLocationPattern, warParent, '~');
  }

  /** A war at `dir/name` has `dir` as its directory. */
  lemma WarParentOf(sys: Layer, dir: string, name: string)
    requires |dir| > 0 && |name| > 0
    requires UnixFiles.NoDoubleSlash(dir + "/" + name)
    requires forall i :: 0 <= i < |name| ==> name[i] != '/'
    ensures WarLocationProperty in sys && sys[WarLocationProperty] == dir + "/" + name ==> WarParent(sys) == dir
  {
    UnixFiles.ParentOfEntry(dir, name);
  }

  /** Without a war location the war directory is the empty string. */
  lemma NoWarLocation(sys: Layer)
    requires WarLocationProperty !in sys
    ensures WarParent(sys) == ""
  {
    UnixFiles.ParentOfBareName("");
  }
}
