/**
 * Asset bookkeeping: the image, audio and data caches, the base paths their
 * names are joined to, the keys a loaded asset is stored under, and the
 * choice of the first audio file the browser can play.
 *
 * Loading itself (an `Image`, an `Audio` element, `fetch`) is outside the
 * model: each load takes its outcome as a parameter, `None` for a failed
 * load. The browser's answers to `canPlayType` are a parameter as well.
 */
module Assets {
  import opened Wrappers

  // ---------------------------------------------------------------------------
  // Paths and keys
  // ---------------------------------------------------------------------------

  /** `base.replace(/\/$/, '')`: one trailing slash goes. */
  function TrimTrailingSlash(s: string): (r: string)
    ensures |s| > 0 && s[|s| - 1] == '/' ==> r == s[..|s| - 1]
    ensures !(|s| > 0 && s[|s| - 1] == '/') ==> r == s
  {
    if |s| > 0 && s[|s| - 1] == '/' then s[..|s| - 1] else s
  }

  /** `url.replace(/^\//, '')`: one leading slash goes. */
  function TrimLeadingSlash(s: string): (r: string)
    ensures |s| > 0 && s[0] == '/' ==> r == s[1..]
    ensures !(|s| > 0 && s[0] == '/') ==> r == s
  {
    if |s| > 0 && s[0] == '/' then s[1..] else s
  }

  /**
   * Trimming undoes adding the slash, and takes at most that one slash
   * away: the string is the trimmed one, or the trimmed one with its slash.
   */
  lemma TrimSlashes(s: string)
    ensures TrimTrailingSlash(s + "/") == s && TrimLeadingSlash("/" + s) == s
    ensures s == TrimTrailingSlash(s) || s == TrimTrailingSlash(s) + "/"
    ensures s == TrimLeadingSlash(s) || s == "/" + TrimLeadingSlash(s)
  {
    assert (s + "/")[..|s + "/"| - 1] == s;
    assert ("/" + s)[1..] == s;
    if |s| > 0 && s[|s| - 1] == '/' {
      assert s == s[..|s| - 1] + "/";
    }
    if |s| > 0 && s[0] == '/' {
      assert s == "/" + s[1..];
    }
  }

  /**
   * `joinPath`: the base without its trailing slash and the name without
   * its leading slash (kept when there is no base), the empty ones dropped,
   * joined by `/`.
   */
  function JoinPath(base: string, url: string): string
  {
    var a := TrimTrailingSlash(base);
    var b := if base != "" then TrimLeadingSlash(url) else url;
    if a == "" then b else if b == "" then a else a + "/" + b
  }

  /** Without a base path the name is used as it is. */
  lemma JoinPathWithoutBase(url: string)
    ensures JoinPath("", url) == url
  {
  }

  /** Base and name are joined by exactly one slash, whichever side brings one. */
  lemma JoinPathOneSlash(base: string, url: string)
    requires base != "" && base[|base| - 1] != '/'
    requires url != "" && url[0] != '/'
    ensures JoinPath(base, url) == base + "/" + url
    ensures JoinPath(base + "/", url) == base + "/" + url
    ensures JoinPath(base, "/" + url) == base + "/" + url
    ensures JoinPath(base + "/", "/" + url) == base + "/" + url
  {
    assert (base + "/")[..|base + "/"| - 1] == base;
    assert ("/" + url)[1..] == url;
  }

  function LastIndexOf(s: string, c: char): (r: Option<nat>)
    ensures r.None? <==> c !in s
    ensures r.Some? ==> r.value < |s| && s[r.value] == c && c !in s[r.value + 1..]
    decreases |s|
  {
    if s == [] then None
    else if s[|s| - 1] == c then Some(|s| - 1)
    else
      var r := LastIndexOf(s[..|s| - 1], c);
      assert s == s[..|s| - 1] + [s[|s| - 1]];
      if r.Some? then
        assert s[r.value + 1..] == s[..|s| - 1][r.value + 1..] + [s[|s| - 1]];
        r
      else r
  }

  /** `url.split('.').pop()`: what follows the last dot, or the whole name when there is none. */
  function Extension(url: string): (r: string)
    ensures '.' !in r
    ensures '.' !in url ==> r == url
  {
    match LastIndexOf(url, '.')
    case None => url
    case Some(i) => url[i + 1..]
  }

  /** `s.replace(pat, '')` with a string pattern: the first occurrence goes. */
  function StripFirst(s: string, pat: string): (r: string)
    requires pat != []
    ensures r == s || |r| == |s| - |pat|
    decreases |s|
  {
    if |s| < |pat| then s
    else if s[..|pat|] == pat then s[|pat|..]
    else [s[0]] + StripFirst(s[1..], pat)
  }

  function Count(s: string, c: char): nat
    decreases |s|
  {
    if s == [] then 0 else (if s[0] == c then 1 else 0) + Count(s[1..], c)
  }

  /**
   * `getName`: the name without its extension; a name with a single slash
   * also loses a leading one, so that a name below the base path is
   * relative to it.
   */
  function NameOf(url: string): string
  {
    var n := StripFirst(url, "." + Extension(url));
    if Count(n, '/') == 1 then TrimLeadingSlash(n) else n
  }

  /** Stripping a pattern that sits only at the end takes it off. */
  lemma {:induction false} StripFirstAtEnd(stem: string, ext: string)
    requires '.' !in stem
    ensures StripFirst(stem + "." + ext, "." + ext) == stem
    decreases |stem|
  {
    var s, pat := stem + "." + ext, "." + ext;
    if stem == [] {
      assert s == pat;
    } else {
      assert s[..|pat|][0] == stem[0] != '.';
      assert s[1..] == stem[1..] + "." + ext;
      StripFirstAtEnd(stem[1..], ext);
      assert [s[0]] + stem[1..] == stem;
    }
  }

  /** The last `c` is the one followed by none. */
  lemma {:induction false} LastIndexOfBefore(a: string, c: char, b: string)
    requires c !in b
    ensures LastIndexOf(a + [c] + b, c) == Some(|a|)
    decreases |b|
  {
    var s := a + [c] + b;
    if b != [] {
      assert s[..|s| - 1] == a + [c] + b[..|b| - 1];
      assert s[|s| - 1] == b[|b| - 1];
      LastIndexOfBefore(a, c, b[..|b| - 1]);
    }
  }

  /** The extension is what follows the last dot. */
  lemma ExtensionAfterLastDot(stem: string, ext: string)
    requires '.' !in ext
    ensures Extension(stem + "." + ext) == ext
  {
    LastIndexOfBefore(stem, '.', ext);
    assert (stem + "." + ext)[|stem| + 1..] == ext;
  }

  /** A name whose only dot starts its extension: the extension is what follows, the key what precedes it. */
  lemma ExtensionAndStem(stem: string, ext: string)
    requires '.' !in stem && '.' !in ext
    ensures Extension(stem + "." + ext) == ext
    ensures StripFirst(stem + "." + ext, "." + ext) == stem
  {
    ExtensionAfterLastDot(stem, ext);
    StripFirstAtEnd(stem, ext);
  }

  /** The dots of a leading `../` never start `.` + an extension that begins with neither a dot nor a slash. */
  lemma StripFirstAfterParent(rest: string, ext: string)
    requires ext != "" && ext[0] != '.' && ext[0] != '/'
    ensures StripFirst("../" + rest, "." + ext) == "../" + StripFirst(rest, "." + ext)
  {
    var pat := "." + ext;
    var s0, s1, s2 := "../" + rest, "./" + rest, "/" + rest;
    assert s0[1..] == s1 && s1[1..] == s2 && s2[1..] == rest;
    if |rest| < |pat| {
      assert StripFirst(rest, pat) == rest;
    }
    var t2 := StripFirst(s2, pat);
    if |s2| >= |pat| {
      assert s2[..|pat|][0] == '/' != pat[0];
      assert t2 == "/" + StripFirst(rest, pat);
    } else {
      assert t2 == "/" + StripFirst(rest, pat);
    }
    var t1 := StripFirst(s1, pat);
    if |s1| >= |pat| {
      assert s1[..|pat|][1] == '/' != pat[1];
      assert t1 == "." + t2;
    } else {
      assert t1 == "." + t2;
    }
    if |s0| >= |pat| {
      assert s0[..|pat|][1] == '.' != pat[1];
      assert StripFirst(s0, pat) == "." + t1;
    }
  }

  lemma {:induction false} CountAppend(a: string, b: string, c: char)
    ensures Count(a + b, c) == Count(a, c) + Count(b, c)
    decreases |a|
  {
    if a == [] {
      assert a + b == b;
    } else {
      assert (a + b)[1..] == a[1..] + b;
      CountAppend(a[1..], b, c);
    }
  }

  /** A bare file name is keyed by its name without the extension. */
  lemma NameOfBare(file: string, ext: string)
    requires '/' !in file && '.' !in file && '.' !in ext
    ensures NameOf(file + "." + ext) == file
  {
    ExtensionAndStem(file, ext);
    CountAbsent(file, '/');
  }

  lemma CountSlash()
    ensures Count("/", '/') == 1
    ensures Count("../", '/') == 1
  {
    assert "/"[1..] == [];
    assert "../"[1..] == "./" && "./"[1..] == "/";
  }

  /** A file directly below the root loses the slash as well: it is relative to the base path. */
  lemma NameOfRooted(file: string, ext: string)
    requires '/' !in file && '.' !in file && '.' !in ext
    ensures NameOf("/" + file + "." + ext) == file
  {
    ExtensionAndStem("/" + file, ext);
    CountAbsent(file, '/');
    CountSlash();
    CountAppend("/", file, '/');
    assert ("/" + file)[1..] == file;
  }

  /** A file in a folder keeps the folder and the leading slash. */
  lemma NameOfInFolder(dir: string, file: string, ext: string)
    requires '/' !in dir && '/' !in file && '.' !in dir && '.' !in file && '.' !in ext
    ensures NameOf("/" + dir + "/" + file + "." + ext) == "/" + dir + "/" + file
  {
    var folder := "/" + dir + "/" + file;
    assert folder == "/" + dir + ("/" + file);
    ExtensionAndStem(folder, ext);
    CountAbsent(dir, '/');
    CountAbsent(file, '/');
    CountSlash();
    CountAppend("/", dir, '/');
    CountAppend("/", file, '/');
    CountAppend("/" + dir, "/" + file, '/');
  }

  lemma CountTwoSlashes(front: string, dir: string, file: string)
    requires '/' !in dir && '/' !in file && Count(front, '/') == 1
    ensures Count(front + dir + "/" + file, '/') == 2
  {
    CountAbsent(dir, '/');
    CountAbsent(file, '/');
    CountSlash();
    CountAppend("/", file, '/');
    CountAppend(dir, "/" + file, '/');
    CountAppend(front, dir + ("/" + file), '/');
    assert front + dir + "/" + file == front + (dir + ("/" + file));
  }

  lemma StripFirstParentStem(rest: string, ext: string)
    requires '.' !in rest && ext != "" && ext[0] != '.' && ext[0] != '/'
    ensures StripFirst("../" + rest + "." + ext, "." + ext) == "../" + rest
  {
    StripFirstAtEnd(rest, ext);
    StripFirstAfterParent(rest + "." + ext, ext);
    assert "../" + rest + "." + ext == "../" + (rest + "." + ext);
  }

  /** A `../` path keeps everything but the extension. */
  lemma NameOfParent(dir: string, file: string, ext: string)
    requires '/' !in dir && '/' !in file && '.' !in dir && '.' !in file && '.' !in ext
    requires ext != "" && ext[0] != '/'
    ensures NameOf("../" + dir + "/" + file + "." + ext) == "../" + dir + "/" + file
  {
    var rest := dir + "/" + file;
    var up := "../" + rest;
    assert "../" + dir + "/" + file + "." + ext == up + "." + ext;
    assert up == "../" + dir + "/" + file;
    assert '.' !in rest by { assert rest == dir + ("/" + file); }
    ExtensionAfterLastDot(up, ext);
    StripFirstParentStem(rest, ext);
    CountSlash();
    CountTwoSlashes("../", dir, file);
  }

  lemma {:induction false} CountAbsent(s: string, c: char)
    requires c !in s
    ensures Count(s, c) == 0
    decreases |s|
  {
    if s != [] {
      assert c !in s[1..];
      CountAbsent(s[1..], c);
    }
  }

  // ---------------------------------------------------------------------------
  // Audio source selection
  // ---------------------------------------------------------------------------

  /** What `canPlayType` answered for the four formats `getCanPlay` asks about. */
  datatype CanPlay = CanPlay(wav: bool, mp3: bool, ogg: bool, aac: bool)

  /** `canPlay[getExtension(source)]`; any other extension reads as `undefined`. */
  predicate Playable(source: string, can: CanPlay)
  {
    var ext := Extension(source);
    (ext == "wav" && can.wav) || (ext == "mp3" && can.mp3) || (ext == "ogg" && can.ogg) || (ext == "aac" && can.aac)
  }

  /** The position of the first `true`. */
  function FirstTrue(flags: seq<bool>): (r: Option<nat>)
    ensures r.None? <==> forall i :: 0 <= i < |flags| ==> !flags[i]
    ensures r.Some? ==> r.value < |flags| && flags[r.value] && forall j :: 0 <= j < r.value ==> !flags[j]
    decreases |flags|
  {
    if flags == [] then None
    else if flags[0] then Some(0)
    else
      var rest := flags[1..];
      assert forall j :: 1 <= j < |flags| ==> flags[j] == rest[j - 1];
      match FirstTrue(rest)
      case None => None
      case Some(i) => Some(i + 1)
  }

  /** Which of the sources can be played. */
  function PlayableFlags(sources: seq<string>, can: CanPlay): (r: seq<bool>)
    ensures |r| == |sources| && forall i :: 0 <= i < |sources| ==> r[i] == Playable(sources[i], can)
  {
    seq(|sources|, i requires 0 <= i < |sources| => Playable(sources[i], can))
  }

  /** The index of the first playable source, as the `reduce` over the sources finds it. */
  function FirstPlayable(sources: seq<string>, can: CanPlay): (r: Option<nat>)
    ensures r.None? <==> forall i :: 0 <= i < |sources| ==> !Playable(sources[i], can)
    ensures r.Some? ==> r.value < |sources| && Playable(sources[r.value], can) &&
                        forall j :: 0 <= j < r.value ==> !Playable(sources[j], can)
  {
    var flags := PlayableFlags(sources, can);
    assert forall i :: 0 <= i < |sources| ==> flags[i] == Playable(sources[i], can);
    FirstTrue(flags)
  }

  /** Of two sources, the first is taken when it is playable, else the second when it is. */
  lemma FirstPlayableOfTwo(a: string, b: string, can: CanPlay)
    ensures FirstPlayable([a, b], can) ==
            if Playable(a, can) then Some(0) else if Playable(b, can) then Some(1) else None
  {
    assert [a, b][0] == a && [a, b][1..] == [b];
    assert [b][0] == b && [b][1..] == [];
  }

  lemma FirstPlayableOfOne(a: string, can: CanPlay)
    ensures FirstPlayable([a], can) == if Playable(a, can) then Some(0) else None
  {
    assert [a][0] == a && [a][1..] == [];
  }

  /** The extension of a dotted name, for a name whose stem has no dot of its own. */
  lemma ExtensionOf(stem: string, suffix: string, ext: string)
    requires '.' !in ext && suffix == "." + ext
    ensures Extension(stem + suffix) == ext
  {
    ExtensionAfterLastDot(stem, ext);
    assert stem + suffix == stem + "." + ext;
  }

  /** The sources of the tests, an `.ogg` before an `.mp3`: the `.ogg` wins whenever it is playable. */
  lemma FirstPlayableExamples(stem: string)
    ensures FirstPlayable([stem + ".ogg", stem + ".mp3"], CanPlay(false, true, false, false)) == Some(1)
    ensures FirstPlayable([stem + ".ogg", stem + ".mp3"], CanPlay(false, false, true, false)) == Some(0)
    ensures FirstPlayable([stem + ".ogg", stem + ".mp3"], CanPlay(false, true, true, false)) == Some(0)
    ensures FirstPlayable([stem + ".aaa"], CanPlay(true, true, true, true)) == None
  {
    ExtensionOf(stem, ".ogg", "ogg");
    ExtensionOf(stem, ".mp3", "mp3");
    ExtensionOf(stem, ".aaa", "aaa");
    FirstPlayableOfTwo(stem + ".ogg", stem + ".mp3", CanPlay(false, true, false, false));
    FirstPlayableOfTwo(stem + ".ogg", stem + ".mp3", CanPlay(false, false, true, false));
    FirstPlayableOfTwo(stem + ".ogg", stem + ".mp3", CanPlay(false, true, true, false));
    FirstPlayableOfOne(stem + ".aaa", CanPlay(true, true, true, true));
  }

  // ---------------------------------------------------------------------------
  // Dispatch by extension
  // ---------------------------------------------------------------------------

  datatype Kind = ImageAsset | AudioAsset | DataAsset

  predicate EndsWith(s: string, suffix: string)
  {
    |suffix| <= |s| && s[|s| - |suffix|..] == suffix
  }

  /** `/(jpeg|jpg|gif|png|webp)$/` and `/(wav|mp3|ogg|aac)$/` on an extension; anything else is data. */
  function KindOfExtension(ext: string): (k: Kind)
    ensures k == ImageAsset <==> EndsWith(ext, "jpeg") || EndsWith(ext, "jpg") || EndsWith(ext, "gif") ||
                                 EndsWith(ext, "png") || EndsWith(ext, "webp")
    ensures k == AudioAsset <==> !(EndsWith(ext, "jpeg") || EndsWith(ext, "jpg") || EndsWith(ext, "gif") ||
                                   EndsWith(ext, "png") || EndsWith(ext, "webp")) &&
                                 (EndsWith(ext, "wav") || EndsWith(ext, "mp3") || EndsWith(ext, "ogg") || EndsWith(ext, "aac"))
  {
    if EndsWith(ext, "jpeg") || EndsWith(ext, "jpg") || EndsWith(ext, "gif") || EndsWith(ext, "png") || EndsWith(ext, "webp") then ImageAsset
    else if EndsWith(ext, "wav") || EndsWith(ext, "mp3") || EndsWith(ext, "ogg") || EndsWith(ext, "aac") then AudioAsset
    else DataAsset
  }

  /** Each image format of the pattern is an image, each audio format is audio, and JSON is data. */
  lemma KindOfFormats()
    ensures KindOfExtension("jpeg") == ImageAsset && KindOfExtension("jpg") == ImageAsset
    ensures KindOfExtension("gif") == ImageAsset && KindOfExtension("png") == ImageAsset
    ensures KindOfExtension("webp") == ImageAsset
    ensures KindOfExtension("wav") == AudioAsset && KindOfExtension("mp3") == AudioAsset
    ensures KindOfExtension("ogg") == AudioAsset && KindOfExtension("aac") == AudioAsset
    ensures KindOfExtension("json") == DataAsset
  {
    assert EndsWith("jpeg", "jpeg") && EndsWith("jpg", "jpg") && EndsWith("gif", "gif");
    assert EndsWith("png", "png") && EndsWith("webp", "webp");
    NotImage("wav");
    NotImage("mp3");
    NotImage("ogg");
    NotImage("aac");
    NotImage("json");
    assert EndsWith("wav", "wav") && EndsWith("mp3", "mp3") && EndsWith("ogg", "ogg") && EndsWith("aac", "aac");
    assert !EndsWith("json", "wav") && !EndsWith("json", "mp3") && !EndsWith("json", "ogg") && !EndsWith("json", "aac");
  }

  /** A three- or four-letter extension that is none of the image formats and ends in none of them. */
  lemma NotImage(ext: string)
    requires 3 <= |ext| <= 4 && ext != "jpeg" && ext != "webp"
    requires var e := ext[|ext| - 3..]; e != "jpg" && e != "gif" && e != "png"
    ensures !(EndsWith(ext, "jpeg") || EndsWith(ext, "jpg") || EndsWith(ext, "gif") ||
              EndsWith(ext, "png") || EndsWith(ext, "webp"))
  {
  }

  /** An argument of `load` is dispatched on the extension of its first URL. */
  function KindOf(asset: seq<string>): Kind
    requires |asset| > 0
  {
    KindOfExtension(Extension(asset[0]))
  }

  /** An asset whose first URL is a stem without dots and an extension goes to that extension's loader. */
  lemma KindOfFirst(asset: seq<string>, stem: string, suffix: string, ext: string)
    requires |asset| > 0 && asset[0] == stem + suffix && '.' !in ext && suffix == "." + ext
    ensures KindOf(asset) == KindOfExtension(ext)
  {
    ExtensionOf(stem, suffix, ext);
  }

  /** A `png` asset is an image. */
  lemma KindOfImage(stem: string)
    ensures KindOf([stem + ".png"]) == ImageAsset
  {
    KindOfFirst([stem + ".png"], stem, ".png", "png");
    assert EndsWith("png", "png");
  }

  /** An asset whose first source is an `mp3` is audio. */
  lemma KindOfAudio(stem: string)
    ensures KindOf([stem + ".mp3", stem + ".ogg"]) == AudioAsset
  {
    KindOfFirst([stem + ".mp3", stem + ".ogg"], stem, ".mp3", "mp3");
    assert EndsWith("mp3", "mp3") && !EndsWith("mp3", "jpeg") && !EndsWith("mp3", "jpg") && !EndsWith("mp3", "gif")
        && !EndsWith("mp3", "png") && !EndsWith("mp3", "webp");
  }

  /** A `json` asset is data. */
  lemma KindOfData(stem: string)
    ensures KindOf([stem + ".json"]) == DataAsset
  {
    KindOfFirst([stem + ".json"], stem, ".json", "json");
    assert !EndsWith("json", "jpeg") && !EndsWith("json", "jpg") && !EndsWith("json", "gif")
        && !EndsWith("json", "png") && !EndsWith("json", "webp");
    assert !EndsWith("json", "wav") && !EndsWith("json", "mp3") && !EndsWith("json", "ogg") && !EndsWith("json", "aac");
  }

  /** The assets of the `load` tests go to the image, audio and data loaders. */
  lemma KindOfExamples(stem: string)
    ensures KindOf([stem + ".png"]) == ImageAsset
    ensures KindOf([stem + ".mp3", stem + ".ogg"]) == AudioAsset
    ensures KindOf([stem + ".json"]) == DataAsset
  {
    KindOfImage(stem);
    KindOfAudio(stem);
    KindOfData(stem);
  }

  // ---------------------------------------------------------------------------
  // Caches
  // ---------------------------------------------------------------------------

  datatype LoadError = Unplayable(sources: seq<string>) | Failed(url: string)

  /** A loaded asset is stored under its key and under its joined URL. */
  function Store<A>(cache: map<string, A>, url: string, resolved: string, v: A): (r: map<string, A>)
    ensures r.Keys == cache.Keys + {NameOf(url), resolved}
    ensures r[NameOf(url)] == v && r[resolved] == v
    ensures forall k :: k in cache && k != NameOf(url) && k != resolved ==> r[k] == cache[k]
  {
    cache[NameOf(url) := v][resolved := v]
  }

  /**
   * One load through a cache: a URL whose joined form is cached resolves
   * with the cached asset and asks for nothing; otherwise the asset is
   * requested, and on success stored, on failure rejected with the joined URL.
   */
  function LoadThrough<A>(cache: map<string, A>, base: string, url: string, outcome: Option<A>): (r: (map<string, A>, Result<A, LoadError>, bool))
    ensures var resolved := JoinPath(base, url);
            (r.2 <==> resolved !in cache) &&
            (!r.2 ==> r.0 == cache && r.1 == Ok(cache[resolved])) &&
            (r.2 && outcome.None? ==> r.0 == cache && r.1 == Err(Failed(resolved))) &&
            (r.2 && outcome.Some? ==> r.0 == Store(cache, url, resolved, outcome.value) && r.1 == Ok(outcome.value))
  {
    var resolved := JoinPath(base, url);
    if resolved in cache then (cache, Ok(cache[resolved]), false)
    else match outcome
      case None => (cache, Err(Failed(resolved)), true)
      case Some(v) => (Store(cache, url, resolved, v), Ok(v), true)
  }

  /** Loading what was just loaded asks for nothing and gives the same asset, whatever the second outcome. */
  lemma SecondLoadIsCached<A>(cache: map<string, A>, base: string, url: string, v: A, outcome: Option<A>)
    ensures var first := LoadThrough(cache, base, url, Some(v));
            var second := LoadThrough(first.0, base, url, outcome);
            !second.2 && second.0 == first.0 && second.1 == first.1
  {
  }

  /**
   * After a load the joined URL is cached exactly when the load resolved,
   * and then with the asset it resolved with; nothing already cached is
   * lost, and a rejected load caches nothing.
   */
  lemma LoadedIsCached<A>(cache: map<string, A>, base: string, url: string, outcome: Option<A>)
    ensures var r := LoadThrough(cache, base, url, outcome);
            var resolved := JoinPath(base, url);
            (resolved in r.0 <==> r.1.Ok?) && (r.1.Ok? ==> r.0[resolved] == r.1.value) &&
            cache.Keys <= r.0.Keys && (r.1.Err? ==> r.0 == cache && r.1.error == Failed(resolved))
  {
  }

  class AssetStore<A> {
    var imagePath: string
    var audioPath: string
    var dataPath: string
    var imageAssets: map<string, A>
    var audioAssets: map<string, A>
    var dataAssets: map<string, A>

    constructor ()
      ensures imagePath == "" && audioPath == "" && dataPath == ""
      ensures imageAssets == map[] && audioAssets == map[] && dataAssets == map[]
    {
      imagePath, audioPath, dataPath := "", "", "";
      imageAssets, audioAssets, dataAssets := map[], map[], map[];
    }

    method SetImagePath(path: string)
      modifies this
      ensures imagePath == path && audioPath == old(audioPath) && dataPath == old(dataPath)
      ensures imageAssets == old(imageAssets) && audioAssets == old(audioAssets) && dataAssets == old(dataAssets)
    {
      imagePath := path;
    }

    method SetAudioPath(path: string)
      modifies this
      ensures audioPath == path && imagePath == old(imagePath) && dataPath == old(dataPath)
      ensures imageAssets == old(imageAssets) && audioAssets == old(audioAssets) && dataAssets == old(dataAssets)
    {
      audioPath := path;
    }

    method SetDataPath(path: string)
      modifies this
      ensures dataPath == path && imagePath == old(imagePath) && audioPath == old(audioPath)
      ensures imageAssets == old(imageAssets) && audioAssets == old(audioAssets) && dataAssets == old(dataAssets)
    {
      dataPath := path;
    }

    /** `loadImage`; `requested` says whether a new `Image` was made. */
    method LoadImage(url: string, outcome: Option<A>) returns (r: Result<A, LoadError>, requested: bool)
      modifies this
      ensures (imageAssets, r, requested) == LoadThrough(old(imageAssets), imagePath, url, outcome)
      ensures imagePath == old(imagePath) && audioPath == old(audioPath) && dataPath == old(dataPath)
      ensures audioAssets == old(audioAssets) && dataAssets == old(dataAssets)
    {
      var step := LoadThrough(imageAssets, imagePath, url, outcome);
      imageAssets, r, requested := step.0, step.1, step.2;
    }

    /** `loadData`; `requested` says whether `fetch` was called. */
    method LoadData(url: string, outcome: Option<A>) returns (r: Result<A, LoadError>, requested: bool)
      modifies this
      ensures (dataAssets, r, requested) == LoadThrough(old(dataAssets), dataPath, url, outcome)
      ensures imagePath == old(imagePath) && audioPath == old(audioPath) && dataPath == old(dataPath)
      ensures imageAssets == old(imageAssets) && audioAssets == old(audioAssets)
    {
      var step := LoadThrough(dataAssets, dataPath, url, outcome);
      dataAssets, r, requested := step.0, step.1, step.2;
    }

    /**
     * `loadAudio`: the first playable source is loaded through the audio
     * cache; when none is playable the load is rejected before any request.
     */
    method LoadAudio(sources: seq<string>, can: CanPlay, outcome: Option<A>) returns (r: Result<A, LoadError>, requested: bool)
      modifies this
      ensures (audioAssets, r, requested) == AudioThrough(old(audioAssets), audioPath, sources, can, outcome)
      ensures imagePath == old(imagePath) && audioPath == old(audioPath) && dataPath == old(dataPath)
      ensures imageAssets == old(imageAssets) && dataAssets == old(dataAssets)
    {
      var step := AudioThrough(audioAssets, audioPath, sources, can, outcome);
      audioAssets, r, requested := step.0, step.1, step.2;
    }

    /** One argument of `load`, given to the loader of `kind`. */
    method LoadArgument(kind: Kind, asset: seq<string>, can: CanPlay, outcome: Option<A>) returns (r: Result<A, LoadError>)
      requires |asset| > 0
      modifies this
      ensures (CachesNow(), r) == LoadOne(old(CachesNow()), PathsNow(), kind, asset, can, outcome)
      ensures PathsNow() == old(PathsNow())
    {
      var requested: bool;
      match kind
      case ImageAsset =>
        r, requested := LoadImage(asset[0], outcome);
      case DataAsset =>
        r, requested := LoadData(asset[0], outcome);
      case AudioAsset =>
        r, requested := LoadAudio(asset, can, outcome);
    }

    function CachesNow(): Caches<A>
      reads this
    {
      Caches(imageAssets, audioAssets, dataAssets)
    }

    function PathsNow(): Paths
      reads this
    {
      Paths(imagePath, audioPath, dataPath)
    }

    /**
     * `load`: every argument goes to the loader its first URL's extension
     * selects, one after the other; the results come back in argument
     * order, or the first failure rejects the whole load.
     */
    method Load(assets: seq<seq<string>>, can: CanPlay, outcomes: seq<Option<A>>) returns (r: Result<seq<A>, LoadError>)
      requires |outcomes| == |assets|
      requires forall i :: 0 <= i < |assets| ==> |assets[i]| > 0
      modifies this
      ensures var all := LoadAll(old(CachesNow()), PathsNow(), KindsOf(assets), assets, can, outcomes, |assets|);
              CachesNow() == all.0 && r == Collect(all.1)
      ensures PathsNow() == old(PathsNow())
    {
      ghost var c0, p0 := CachesNow(), PathsNow();
      var kinds := KindsOf(assets);
      var results: seq<Result<A, LoadError>> := [];
      var i := 0;
      while i < |assets|
        invariant 0 <= i <= |assets|
        invariant PathsNow() == p0
        invariant (CachesNow(), results) == LoadAll(c0, p0, kinds, assets, can, outcomes, i)
      {
        results := LoadNext(c0, p0, kinds, assets, can, outcomes, i, results);
        i := i + 1;
      }
      r := Collect(results);
    }

    /** The body of the `load` loop: argument `i` after the `i` before it. */
    method LoadNext(ghost c0: Caches<A>, ghost p0: Paths, kinds: seq<Kind>, assets: seq<seq<string>>, can: CanPlay,
                    outcomes: seq<Option<A>>, i: nat, results: seq<Result<A, LoadError>>) returns (next: seq<Result<A, LoadError>>)
      requires i < |assets| == |kinds| == |outcomes|
      requires forall j :: 0 <= j < |assets| ==> |assets[j]| > 0
      requires PathsNow() == p0 && (CachesNow(), results) == LoadAll(c0, p0, kinds, assets, can, outcomes, i)
      modifies this
      ensures PathsNow() == p0 && (CachesNow(), next) == LoadAll(c0, p0, kinds, assets, can, outcomes, i + 1)
    {
      var one := LoadArgument(kinds[i], assets[i], can, outcomes[i]);
      LoadAllStep(c0, p0, kinds, assets, can, outcomes, i, CachesNow(), results, one);
      next := results + [one];
    }
  }

  /** The audio loader on its cache: the first playable source, or a rejection naming all of them. */
  function AudioThrough<A>(cache: map<string, A>, base: string, sources: seq<string>, can: CanPlay, outcome: Option<A>):
    (r: (map<string, A>, Result<A, LoadError>, bool))
    ensures FirstPlayable(sources, can).None? ==> r == (cache, Err(Unplayable(sources)), false)
    ensures FirstPlayable(sources, can).Some? ==>
              r == LoadThrough(cache, base, sources[FirstPlayable(sources, can).value], outcome)
  {
    match FirstPlayable(sources, can)
    case None => (cache, Err(Unplayable(sources)), false)
    case Some(i) => LoadThrough(cache, base, sources[i], outcome)
  }

  /**
   * Audio is rejected as unplayable exactly when no source can be played;
   * otherwise the source requested and cached is a playable one that comes
   * before no other playable source, and loading the same sources again
   * after success requests nothing and resolves with the same asset.
   */
  lemma AudioLoadsFirstPlayable<A>(cache: map<string, A>, base: string, sources: seq<string>, can: CanPlay,
                                   outcome: Option<A>, again: Option<A>)
    ensures var r := AudioThrough(cache, base, sources, can, outcome);
            (r.1 == Err(Unplayable(sources)) <==> forall i :: 0 <= i < |sources| ==> !Playable(sources[i], can))
    ensures var r := AudioThrough(cache, base, sources, can, outcome);
            r.1.Ok? ==> FirstPlayable(sources, can).Some? &&
                        var url := JoinPath(base, sources[FirstPlayable(sources, can).value]);
                        url in r.0 && r.0[url] == r.1.value
    ensures var r := AudioThrough(cache, base, sources, can, outcome);
            var r2 := AudioThrough(r.0, base, sources, can, again);
            r.1.Ok? ==> !r2.2 && r2.0 == r.0 && r2.1 == r.1
  {
    match FirstPlayable(sources, can)
    case None =>
    case Some(i) =>
      LoadedIsCached(cache, base, sources[i], outcome);
  }

  datatype Caches<A> = Caches(image: map<string, A>, audio: map<string, A>, data: map<string, A>)
  datatype Paths = Paths(image: string, audio: string, data: string)

  /** The loader each argument of `load` goes to, in argument order. */
  function KindsOf(assets: seq<seq<string>>): (r: seq<Kind>)
    requires forall i :: 0 <= i < |assets| ==> |assets[i]| > 0
    ensures |r| == |assets|
  {
    seq(|assets|, i requires 0 <= i < |assets| => KindOf(assets[i]))
  }

  /** One argument of `load` through the loader of its kind; only the cache of that kind can change. */
  function LoadOne<A>(c: Caches<A>, p: Paths, kind: Kind, asset: seq<string>, can: CanPlay, outcome: Option<A>): (r: (Caches<A>, Result<A, LoadError>))
    requires |asset| > 0
    ensures kind != ImageAsset ==> r.0.image == c.image
    ensures kind != AudioAsset ==> r.0.audio == c.audio
    ensures kind != DataAsset ==> r.0.data == c.data
  {
    match kind
    case ImageAsset =>
      var s := LoadThrough(c.image, p.image, asset[0], outcome);
      (c.(image := s.0), s.1)
    case DataAsset =>
      var s := LoadThrough(c.data, p.data, asset[0], outcome);
      (c.(data := s.0), s.1)
    case AudioAsset =>
      var s := AudioThrough(c.audio, p.audio, asset, can, outcome);
      (c.(audio := s.0), s.1)
  }

  /** The first `k` arguments of `load`, in order, each through the loader of its kind. */
  function LoadAll<A>(c: Caches<A>, p: Paths, kinds: seq<Kind>, assets: seq<seq<string>>, can: CanPlay,
                      outcomes: seq<Option<A>>, k: nat): (r: (Caches<A>, seq<Result<A, LoadError>>))
    requires k <= |assets| == |kinds| == |outcomes|
    requires forall i :: 0 <= i < |assets| ==> |assets[i]| > 0
    ensures |r.1| == k
  {
    if k == 0 then (c, [])
    else
      var prev := LoadAll(c, p, kinds, assets, can, outcomes, k - 1);
      var one := LoadOne(prev.0, p, kinds[k - 1], assets[k - 1], can, outcomes[k - 1]);
      (one.0, prev.1 + [one.1])
  }

  /** One more argument of `load`: the loads so far, then this one on the caches they left. */
  lemma LoadAllStep<A>(c: Caches<A>, p: Paths, kinds: seq<Kind>, assets: seq<seq<string>>, can: CanPlay,
                       outcomes: seq<Option<A>>, i: nat, after: Caches<A>, results: seq<Result<A, LoadError>>, one: Result<A, LoadError>)
    requires i < |assets| == |kinds| == |outcomes|
    requires forall j :: 0 <= j < |assets| ==> |assets[j]| > 0
    requires var prev := LoadAll(c, p, kinds, assets, can, outcomes, i);
             results == prev.1 && (after, one) == LoadOne(prev.0, p, kinds[i], assets[i], can, outcomes[i])
    ensures (after, results + [one]) == LoadAll(c, p, kinds, assets, can, outcomes, i + 1)
  {
  }

  /** Result `i` of `load` is the load of argument `i`, made after the arguments before it. */
  lemma {:induction false} LoadAllInOrder<A>(c: Caches<A>, p: Paths, kinds: seq<Kind>, assets: seq<seq<string>>, can: CanPlay,
                                             outcomes: seq<Option<A>>, k: nat, i: nat)
    requires i < k <= |assets| == |kinds| == |outcomes|
    requires forall j :: 0 <= j < |assets| ==> |assets[j]| > 0
    ensures LoadAll(c, p, kinds, assets, can, outcomes, k).1[i] ==
            LoadOne(LoadAll(c, p, kinds, assets, can, outcomes, i).0, p, kinds[i], assets[i], can, outcomes[i]).1
    decreases k
  {
    var prev := LoadAll(c, p, kinds, assets, can, outcomes, k - 1);
    var one := LoadOne(prev.0, p, kinds[k - 1], assets[k - 1], can, outcomes[k - 1]);
    LoadAllStep(c, p, kinds, assets, can, outcomes, k - 1, one.0, prev.1, one.1);
    if i < k - 1 {
      LoadAllInOrder(c, p, kinds, assets, can, outcomes, k - 1, i);
      assert (prev.1 + [one.1])[i] == prev.1[i];
    }
  }

  /** `Promise.all`: every value in order, or the first failure in argument order. */
  function Collect<A>(results: seq<Result<A, LoadError>>): (r: Result<seq<A>, LoadError>)
    ensures r.Ok? <==> forall i :: 0 <= i < |results| ==> results[i].Ok?
    ensures r.Ok? ==> |r.value| == |results| && forall i :: 0 <= i < |results| ==> r.value[i] == results[i].value
    ensures r.Err? ==> exists i :: 0 <= i < |results| && results[i] == Err(r.error) &&
                                   forall j :: 0 <= j < i ==> results[j].Ok?
    decreases |results|
  {
    if results == [] then Ok([])
    else
      match results[0]
      case Err(e) => Err(e)
      case Ok(v) =>
        match Collect(results[1..])
        case Err(e) =>
          assert forall i :: 0 < i < |results| ==> results[i] == results[1..][i - 1];
          Err(e)
        case Ok(vs) => Ok([v] + vs)
  }
}
