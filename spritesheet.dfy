/**
 * A sprite sheet: an image cut into equal frames, `_f` of them to a row, and
 * a registry of named animations whose frame lists are written as numbers,
 * `"a..b"` range strings, or arrays of both.
 */
module SpriteSheets {
  import opened Wrappers
  import opened Numbers
  import opened Animations

  /** `_f = ((image.width - margin) / frameWidth) | 0`; a zero frame width gives `Infinity` or `NaN`, so 0. */
  function FramesPerRow(imageWidth: real, margin: real, frameWidth: real): int
  {
    if frameWidth == 0.0 then 0 else Trunc((imageWidth - margin) / frameWidth)
  }

  /** On a sheet at least as wide as its margin, `_f` is the number of whole frames that fit beside the margin. */
  lemma FramesPerRowFits(imageWidth: real, margin: real, frameWidth: real)
    requires frameWidth > 0.0 && imageWidth >= margin
    ensures var n := FramesPerRow(imageWidth, margin, frameWidth);
            n >= 0 && n as real * frameWidth <= imageWidth - margin < (n as real + 1.0) * frameWidth
  {
    var q := (imageWidth - margin) / frameWidth;
    var n := Trunc(q);
    assert q * frameWidth == imageWidth - margin;
    if q < 0.0 {
      MulStrict(q, 0.0, frameWidth);
    }
    MulMonotone(n as real, q, frameWidth);
    MulStrict(q, n as real + 1.0, frameWidth);
  }

  lemma MulMonotone(x: real, y: real, c: real)
    requires x <= y && c > 0.0
    ensures x * c <= y * c
  {
    assert y * c - x * c == (y - x) * c;
  }

  lemma MulStrict(x: real, y: real, c: real)
    requires x < y && c > 0.0
    ensures x * c < y * c
  {
    assert y * c - x * c == (y - x) * c;
  }

  /** A 100 pixel wide image of 10 pixel frames holds 10 to a row, and 9 beside a margin of 10. */
  lemma FramesPerRowExamples()
    ensures FramesPerRow(100.0, 10.0, 10.0) == 9
    ensures FramesPerRow(100.0, 0.0, 10.0) == 10
  {
  }

  /** One entry of a `frames` property: a frame number or a string such as `"1..5"`. */
  datatype Frame = Number(n: int) | Text(s: string)

  /** A `frames` property: a single entry, or an array of entries. */
  datatype FrameList = Single(item: Frame) | Many(items: seq<Frame>)

  /** `s.split('..')`: the pieces between the separators, from left to right. */
  function Split(s: string): (r: seq<string>)
    ensures |r| >= 1
  {
    if |s| < 2 then [s]
    else if s[..2] == ".." then [""] + Split(s[2..])
    else
      var rest := Split(s[1..]);
      [[s[0]] + rest[0]] + rest[1..]
  }

  /** `parts.join('..')`. */
  function Join(parts: seq<string>): string
    requires |parts| >= 1
  {
    if |parts| == 1 then parts[0] else parts[0] + ".." + Join(parts[1..])
  }

  /** Splitting loses nothing: joining the pieces back gives the string. */
  lemma {:induction false} JoinSplit(s: string)
    ensures Join(Split(s)) == s
    decreases |s|
  {
    if |s| < 2 {
    } else if s[..2] == ".." {
      JoinSplit(s[2..]);
      JoinSplitAtSeparator(s);
    } else {
      JoinSplit(s[1..]);
      JoinSplitAtChar(s);
    }
  }

  /** The step of `JoinSplit` for a string that starts with the separator. */
  lemma JoinSplitAtSeparator(s: string)
    requires |s| >= 2 && s[..2] == ".." && Join(Split(s[2..])) == s[2..]
    ensures Join(Split(s)) == s
  {
    JoinCons("", Split(s[2..]));
    assert s == s[..2] + s[2..];
  }

  /** The step of `JoinSplit` for a string that starts with anything else. */
  lemma JoinSplitAtChar(s: string)
    requires |s| >= 2 && s[..2] != ".." && Join(Split(s[1..])) == s[1..]
    ensures Join(Split(s)) == s
  {
    JoinPrepend(s[0], Split(s[1..]));
    assert s == [s[0]] + s[1..];
  }

  lemma JoinCons(p: string, rest: seq<string>)
    requires |rest| >= 1
    ensures Join([p] + rest) == p + ".." + Join(rest)
  {
    assert ([p] + rest)[1..] == rest;
  }

  /** Putting a character in front of the first piece puts it in front of the joined string. */
  lemma JoinPrepend(c: char, rest: seq<string>)
    requires |rest| >= 1
    ensures Join([[c] + rest[0]] + rest[1..]) == [c] + Join(rest)
  {
    var x := [c] + rest[0];
    if |rest| == 1 {
      assert [x] + rest[1..] == [x];
    } else {
      JoinCons(x, rest[1..]);
      JoinCons(rest[0], rest[1..]);
      assert [rest[0]] + rest[1..] == rest;
      ConcatAssoc(c, rest[0], Join(rest[1..]));
    }
  }

  lemma ConcatAssoc(c: char, p: string, t: string)
    ensures [c] + p + ".." + t == [c] + (p + ".." + t)
  {
  }

  /** No two adjacent dots. */
  predicate NoSeparator(s: string)
  {
    forall i :: 0 <= i < |s| - 1 ==> !(s[i] == '.' && s[i + 1] == '.')
  }

  /** A string without the separator splits into itself alone. */
  lemma {:induction false} SplitWithoutSeparator(s: string)
    requires NoSeparator(s)
    ensures Split(s) == [s]
    decreases |s|
  {
    if |s| >= 2 {
      assert !(s[0] == '.' && s[1] == '.');
      assert s[..2][0] == s[0] && s[..2][1] == s[1];
      assert s[..2] != "..";
      SplitWithoutSeparator(s[1..]);
      assert [s[0]] + s[1..] == s;
    }
  }

  predicate IsDigit(c: char)
  {
    '0' <= c <= '9'
  }

  function DigitValue(c: char): nat
    requires IsDigit(c)
  {
    c as nat - '0' as nat
  }

  /** The value of a non-empty run of decimal digits. */
  function DigitsValue(ds: string): nat
    requires forall i :: 0 <= i < |ds| ==> IsDigit(ds[i])
    decreases |ds|
  {
    if |ds| == 0 then 0 else DigitsValue(ds[..|ds| - 1]) * 10 + DigitValue(ds[|ds| - 1])
  }

  predicate AllDigits(ds: string)
  {
    forall i :: 0 <= i < |ds| ==> IsDigit(ds[i])
  }

  /**
   * The unary `+` of a piece of a range string, on whole numbers: the empty
   * string is 0, digits with an optional sign are their value, and anything
   * else is `NaN` (`None`).
   */
  function ToNumber(s: string): (r: Option<int>)
    ensures s == "" ==> r == Some(0)
    ensures r.Some? && s != "" && AllDigits(s) ==> r.value >= 0
  {
    if s == "" then Some(0)
    else if AllDigits(s) then Some(DigitsValue(s))
    else if |s| >= 2 && (s[0] == '-' || s[0] == '+') && AllDigits(s[1..]) then
      var v: int := DigitsValue(s[1..]);
      Some(if s[0] == '-' then -v else v)
    else None
  }

  function DigitChar(d: nat): (c: char)
    requires d < 10
    ensures IsDigit(c) && DigitValue(c) == d
  {
    ('0' as nat + d) as char
  }

  /** The decimal digits of `n`, most significant first. */
  function Digits(n: nat): (ds: string)
    ensures |ds| >= 1 && AllDigits(ds)
  {
    if n < 10 then [DigitChar(n)] else Digits(n / 10) + [DigitChar(n % 10)]
  }

  /** The decimal text of `n`, as `String(n)` writes it. */
  function Show(n: int): string
  {
    if n < 0 then "-" + Digits(-n) else Digits(n)
  }

  /** Reading back the digits of `n` gives `n`. */
  lemma {:induction false} DigitsValueOfDigits(n: nat)
    ensures DigitsValue(Digits(n)) == n
  {
    var ds := Digits(n);
    if n >= 10 {
      DigitsValueOfDigits(n / 10);
      assert ds[..|ds| - 1] == Digits(n / 10);
    }
  }

  /** `+String(n) === n` for every whole number. */
  lemma ToNumberOfShow(n: int)
    ensures ToNumber(Show(n)) == Some(n)
  {
    if n < 0 {
      var ds := Digits(-n);
      DigitsValueOfDigits(-n);
      assert ("-" + ds)[1..] == ds;
      assert !IsDigit(("-" + ds)[0]);
    } else {
      DigitsValueOfDigits(n);
    }
  }

  /** `for (i = a; i <= b; i++)` when `a < b`, otherwise `for (i = a; i >= b; i--)`. */
  function Range(a: int, b: int): (r: seq<int>)
    decreases if a < b then b - a else a - b
  {
    if a == b then [a]
    else if a < b then [a] + Range(a + 1, b)
    else [a] + Range(a - 1, b)
  }

  /** A range holds every frame from `a` to `b` inclusive, one step apart, in the direction of `b`. */
  lemma {:induction false} RangeContents(a: int, b: int)
    ensures |Range(a, b)| == (if a <= b then b - a else a - b) + 1
    ensures forall i :: 0 <= i < |Range(a, b)| ==> Range(a, b)[i] == if a <= b then a + i else a - i
    decreases if a < b then b - a else a - b
  {
    if a < b {
      RangeContents(a + 1, b);
    } else if a > b {
      RangeContents(a - 1, b);
    }
  }

  /** A range read backwards is the range the other way round. */
  lemma RangeReverses(a: int, b: int)
    ensures |Range(b, a)| == |Range(a, b)|
    ensures forall i :: 0 <= i < |Range(a, b)| ==> Range(b, a)[i] == Range(a, b)[|Range(a, b)| - 1 - i]
  {
    RangeContents(a, b);
    RangeContents(b, a);
  }

  /**
   * `parseFrames`: a number is itself; a string is the range between the
   * numbers before and after its first `..`, and nothing when either is `NaN`
   * or there is no second piece.
   */
  function ParseFrame(f: Frame): seq<int>
  {
    match f
    case Number(n) => [n]
    case Text(s) =>
      var parts := Split(s);
      var start := ToNumber(parts[0]);
      var end := if |parts| >= 2 then ToNumber(parts[1]) else None;
      if start.Some? && end.Some? then Range(start.value, end.value) else []
  }

  /** `[].concat(frames)`, each entry parsed and the pieces concatenated in order. */
  function ExpandAll(items: seq<Frame>): seq<int>
  {
    if |items| == 0 then [] else ParseFrame(items[0]) + ExpandAll(items[1..])
  }

  function Expand(frames: FrameList): seq<int>
  {
    match frames
    case Single(f) => ParseFrame(f)
    case Many(items) => ExpandAll(items)
  }

  /** Expanding an array is expanding its parts one after another. */
  lemma {:induction false} ExpandAllAppend(xs: seq<Frame>, ys: seq<Frame>)
    ensures ExpandAll(xs + ys) == ExpandAll(xs) + ExpandAll(ys)
  {
    if |xs| > 0 {
      assert (xs + ys)[0] == xs[0];
      assert (xs + ys)[1..] == xs[1..] + ys;
      ExpandAllAppend(xs[1..], ys);
      var h, t, u := ParseFrame(xs[0]), ExpandAll(xs[1..]), ExpandAll(ys);
      assert ExpandAll(xs + ys) == h + (t + u);
      assert h + (t + u) == (h + t) + u;
    } else {
      assert xs + ys == ys;
    }
  }

  /** A single entry and an array holding only that entry give the same frames. */
  lemma SingleIsMany(f: Frame)
    ensures Expand(Single(f)) == Expand(Many([f]))
  {
    assert ExpandAll([f]) == ParseFrame(f) + ExpandAll([]);
  }

  /** An array of numbers is taken as it is. */
  lemma {:induction false} ExpandNumbers(ns: seq<int>)
    ensures ExpandAll(seq(|ns|, i requires 0 <= i < |ns| => Number(ns[i]))) == ns
  {
    if |ns| > 0 {
      var items := seq(|ns|, i requires 0 <= i < |ns| => Number(ns[i]));
      assert items[1..] == seq(|ns[1..]|, i requires 0 <= i < |ns[1..]| => Number(ns[1..][i]));
      ExpandNumbers(ns[1..]);
      assert ns == [ns[0]] + ns[1..];
    }
  }

  /** `a..b` with two whole numbers written out is the range between them. */
  lemma {:induction false} ParseRangeText(a: nat, b: nat)
    ensures ParseFrame(Text(Digits(a) + ".." + Digits(b))) == Range(a, b)
  {
    var da, db := Digits(a), Digits(b);
    var s := da + ".." + db;
    SplitDigits(da, db);
    DigitsValueOfDigits(a);
    DigitsValueOfDigits(b);
  }

  lemma DigitsHaveNoSeparator(ds: string)
    requires AllDigits(ds)
    ensures NoSeparator(ds)
  {
    assert forall i :: 0 <= i < |ds| ==> IsDigit(ds[i]);
  }

  /** Two digit runs around the separator split into exactly those runs. */
  lemma {:induction false} SplitDigits(da: string, db: string)
    requires AllDigits(da) && AllDigits(db)
    ensures Split(da + ".." + db) == [da, db]
    decreases |da|
  {
    var s := da + ".." + db;
    if |da| == 0 {
      assert s[..2] == ".." && s[2..] == db;
      DigitsHaveNoSeparator(db);
      SplitWithoutSeparator(db);
    } else {
      assert s[0] == da[0] && IsDigit(da[0]);
      assert s[..2] != "..";
      assert s[1..] == da[1..] + ".." + db;
      SplitDigits(da[1..], db);
      assert [da[0]] + da[1..] == da;
    }
  }

  /** The digit text of a single digit. */
  lemma OneDigit(d: nat)
    requires d < 10
    ensures Digits(d) == [DigitChar(d)]
  {
  }

  /** `a..b` with single-digit ends is the range between them. */
  lemma ShortRangeText(a: nat, b: nat)
    requires a < 10 && b < 10
    ensures ParseFrame(Text([DigitChar(a), '.', '.', DigitChar(b)])) == Range(a, b)
  {
    ParseRangeText(a, b);
    OneDigit(a);
    OneDigit(b);
    assert [DigitChar(a)] + ".." + [DigitChar(b)] == [DigitChar(a), '.', '.', DigitChar(b)];
  }

  lemma SingleNumberExample()
    ensures ParseFrame(Number(1)) == [1]
  {
  }

  lemma AscendingExample()
    ensures ParseFrame(Text("1..5")) == [1, 2, 3, 4, 5]
  {
    ShortRangeText(1, 5);
    assert [DigitChar(1), '.', '.', DigitChar(5)] == "1..5";
  }

  lemma DescendingExample()
    ensures ParseFrame(Text("5..1")) == [5, 4, 3, 2, 1]
  {
    ShortRangeText(5, 1);
    assert [DigitChar(5), '.', '.', DigitChar(1)] == "5..1";
  }

  /** A string without `..`, or with a piece that is not a number, gives no frames. */
  lemma NoRangeExamples()
    ensures ParseFrame(Text("5")) == []
    ensures ParseFrame(Text("a..b")) == []
  {
    assert Split("5") == ["5"];
    assert Split("a..b") == ["a", "b"] by {
      assert "a..b"[..2][0] == 'a';
      assert "a..b"[..2] != ".." && "a..b"[1..] == "..b" && "a..b"[0] == 'a';
      assert "..b"[..2] == ".." && "..b"[2..] == "b";
      var rest := Split("..b");
      assert rest == [""] + Split("b") == ["", "b"];
      assert Split("a..b") == [['a'] + rest[0]] + rest[1..];
      assert ['a'] + rest[0] == "a" && rest[1..] == ["b"];
    }
    assert !AllDigits("a") && !IsDigit('a');
  }

  lemma RangeTextExamples()
    ensures ParseFrame(Text("2..3")) == [2, 3] && ParseFrame(Text("4..1")) == [4, 3, 2, 1]
  {
    ShortRangeText(2, 3);
    assert [DigitChar(2), '.', '.', DigitChar(3)] == "2..3";
    ShortRangeText(4, 1);
    assert [DigitChar(4), '.', '.', DigitChar(1)] == "4..1";
  }

  lemma ExpandOne(f: Frame)
    ensures ExpandAll([f]) == ParseFrame(f)
  {
    assert ExpandAll([f]) == ParseFrame(f) + ExpandAll([]);
  }

  /** Five entries expand to their parsed frames one after another. */
  lemma ExpandFive(f1: Frame, f2: Frame, f3: Frame, f4: Frame, f5: Frame)
    ensures ExpandAll([f1, f2, f3, f4, f5]) ==
            ParseFrame(f1) + (ParseFrame(f2) + (ParseFrame(f3) + (ParseFrame(f4) + ParseFrame(f5))))
  {
    ExpandOne(f5);
    assert ExpandAll([f4, f5]) == ParseFrame(f4) + ExpandAll([f5]) by { assert [f4, f5][1..] == [f5]; }
    assert ExpandAll([f3, f4, f5]) == ParseFrame(f3) + ExpandAll([f4, f5]) by { assert [f3, f4, f5][1..] == [f4, f5]; }
    assert ExpandAll([f2, f3, f4, f5]) == ParseFrame(f2) + ExpandAll([f3, f4, f5]) by {
      assert [f2, f3, f4, f5][1..] == [f3, f4, f5];
    }
    assert ExpandAll([f1, f2, f3, f4, f5]) == ParseFrame(f1) + ExpandAll([f2, f3, f4, f5]) by {
      assert [f1, f2, f3, f4, f5][1..] == [f2, f3, f4, f5];
    }
  }

  /** The frames of `[1, t, 4, 5, u]` for texts `t` and `u` that parse to `[2, 3]` and `[4, 3, 2, 1]`. */
  lemma MixedOf(t: string, u: string)
    requires ParseFrame(Text(t)) == [2, 3] && ParseFrame(Text(u)) == [4, 3, 2, 1]
    ensures ExpandAll([Number(1), Text(t), Number(4), Number(5), Text(u)]) == [1, 2, 3, 4, 5, 4, 3, 2, 1]
  {
    ExpandFive(Number(1), Text(t), Number(4), Number(5), Text(u));
    assert [1] + ([2, 3] + ([4] + ([5] + [4, 3, 2, 1]))) == [1, 2, 3, 4, 5, 4, 3, 2, 1];
  }

  /** `frames: [1, '2..3', 4, 5, '4..1']`. */
  lemma MixedExample()
    ensures ExpandAll([Number(1), Text("2..3"), Number(4), Number(5), Text("4..1")]) == [1, 2, 3, 4, 5, 4, 3, 2, 1]
  {
    RangeTextExamples();
    MixedOf("2..3", "4..1");
  }

  /** One entry of the `animations` argument: its name and its properties. */
  datatype AnimationSpec = AnimationSpec(name: string, frames: Option<FrameList>, frameRate: Option<real>, loop: Option<bool>)

  /** The number of entries `createAnimations` stores before it meets one without `frames`. */
  function Storable(specs: seq<AnimationSpec>): (k: nat)
    ensures k <= |specs|
    ensures forall i :: 0 <= i < k ==> specs[i].frames.Some?
    ensures k < |specs| ==> specs[k].frames == None
  {
    if |specs| == 0 || specs[0].frames == None then 0 else 1 + Storable(specs[1..])
  }

  function Names(specs: seq<AnimationSpec>): set<string>
  {
    set i | 0 <= i < |specs| :: specs[i].name
  }

  lemma NamesSnoc(specs: seq<AnimationSpec>, k: nat)
    requires k < |specs|
    ensures Names(specs[..k + 1]) == Names(specs[..k]) + {specs[k].name}
  {
    var a, b := specs[..k + 1], specs[..k];
    assert forall i :: 0 <= i < k ==> a[i] == b[i];
    assert a[k] == specs[k];
    forall n | n in Names(a)
      ensures n in Names(b) + {specs[k].name}
    {
      var i :| 0 <= i < |a| && a[i].name == n;
      if i < k {
        assert b[i].name == n;
      }
    }
    forall n | n in Names(b)
      ensures n in Names(a)
    {
      var i :| 0 <= i < |b| && b[i].name == n;
      assert a[i].name == n;
    }
  }

  /** Each entry before the first without `frames` is storable, and so is the one after it, or it is that first entry. */
  lemma StorableNext(specs: seq<AnimationSpec>, k: nat)
    requires k <= Storable(specs) && k < |specs|
    ensures specs[k].frames.Some? ==> k + 1 <= Storable(specs)
    ensures specs[k].frames.None? ==> k == Storable(specs)
  {
  }

  /** Object keys are distinct. */
  predicate DistinctNames(specs: seq<AnimationSpec>)
  {
    forall i, j :: 0 <= i < j < |specs| ==> specs[i].name != specs[j].name
  }

  /** `a` is the animation `createAnimations` makes for `spec` on a sheet described by `info`. */
  predicate Built(a: Animation, spec: AnimationSpec, info: SheetInfo)
    reads a
  {
    spec.frames.Some? && a.sheet == info && a.frames == Expand(spec.frames.value) &&
    a.frameRate == spec.frameRate && a.loop == (spec.loop != Some(false)) &&
    a.name == spec.name && a.State() == Beginning
  }

  /** Storing the value for entry `k` keeps the earlier entries' values, since the names are distinct. */
  lemma StoreKeeps<V>(specs: seq<AnimationSpec>, k: nat, m: map<string, V>, made: seq<V>, v: V)
    requires DistinctNames(specs) && k < |specs| && |made| == k
    requires forall i :: 0 <= i < k ==> specs[i].name in m && m[specs[i].name] == made[i]
    ensures forall i :: 0 <= i < k + 1 ==>
              specs[i].name in m[specs[k].name := v] && m[specs[k].name := v][specs[i].name] == (made + [v])[i]
  {
    forall i | 0 <= i < k + 1
      ensures specs[i].name in m[specs[k].name := v] && m[specs[k].name := v][specs[i].name] == (made + [v])[i]
    {
      if i < k {
        assert specs[i].name != specs[k].name;
      }
    }
  }

  /** The message `createAnimations` throws for an entry without `frames`. */
  function MissingFrames(name: string): string
  {
    "Animation " + name + " must provide a frames property"
  }

  /** What `SpriteSheet({image})` reads of the image. */
  datatype Image = Image(width: real, height: real)

  class SpriteSheet {
    const image: Image
    const frame: FrameSize
    /** `_f`, the number of frames to a row. */
    const cols: int
    var animations: map<string, Animation>

    /** What the animations of this sheet read from it. */
    function Info(): SheetInfo
    {
      SheetInfo(cols, frame)
    }

    /** `SpriteSheet({image, frameWidth, frameHeight, spacing = 0, margin = 0})`. */
    constructor (image: Image, frameWidth: real, frameHeight: real, spacing: Option<real>, margin: Option<real>)
      ensures this.image == image
      ensures frame == FrameSize(frameWidth, frameHeight, if margin.Some? then margin.value else 0.0,
                                 if spacing.Some? then spacing.value else 0.0)
      ensures cols == FramesPerRow(image.width, frame.margin, frameWidth)
      ensures animations == map[]
    {
      this.image := image;
      var m := if margin.Some? then margin.value else 0.0;
      frame := FrameSize(frameWidth, frameHeight, m, if spacing.Some? then spacing.value else 0.0);
      cols := FramesPerRow(image.width, m, frameWidth);
      animations := map[];
    }

    /** What the first `k` entries have made of the registry `orig`: their animations `made`, stored under their names. */
    ghost predicate StoredPrefix(specs: seq<AnimationSpec>, k: nat, orig: map<string, Animation>, made: seq<Animation>)
      reads this
    {
      k <= |specs| && |made| == k &&
      animations.Keys == orig.Keys + Names(specs[..k]) &&
      (forall n :: n in orig && n !in Names(specs[..k]) ==> animations[n] == orig[n]) &&
      (forall i :: 0 <= i < k ==> specs[i].name in animations && animations[specs[i].name] == made[i])
    }

    /** Stores a new animation for entry `k`, which has `frames`, under its name. */
    method StoreNext(specs: seq<AnimationSpec>, k: nat, ghost orig: map<string, Animation>, ghost made: seq<Animation>)
      returns (a: Animation)
      requires DistinctNames(specs) && k < |specs| && specs[k].frames.Some? && StoredPrefix(specs, k, orig, made)
      modifies this`animations
      ensures fresh(a) && Built(a, specs[k], Info())
      ensures StoredPrefix(specs, k + 1, orig, made + [a])
    {
      var spec := specs[k];
      a := new Animation(Info(), Expand(spec.frames.value), spec.frameRate, spec.loop, spec.name);
      StoreKeeps(specs, k, animations, made, a);
      animations := animations[spec.name := a];
      NamesSnoc(specs, k);
    }

    /**
     * `createAnimations(animations)`: for each entry in order, an animation
     * playing the expanded frame list is stored under the entry's name; the
     * first entry without `frames` throws, after the earlier ones were stored.
     */
    method CreateAnimations(specs: seq<AnimationSpec>) returns (r: Result<(), string>)
      requires DistinctNames(specs)
      modifies this`animations
      ensures r.Ok? <==> Storable(specs) == |specs|
      ensures r.Err? ==> r.error == MissingFrames(specs[Storable(specs)].name)
      ensures animations.Keys == old(animations).Keys + Names(specs[..Storable(specs)])
      ensures forall n :: n in old(animations) && n !in Names(specs[..Storable(specs)]) ==> animations[n] == old(animations)[n]
      ensures forall i :: 0 <= i < Storable(specs) ==>
                specs[i].name in animations &&
                fresh(animations[specs[i].name]) && Built(animations[specs[i].name], specs[i], Info())
    {
      var k := 0;
      ghost var made: seq<Animation> := [];
      assert specs[..0] == [];
      while k < |specs| && specs[k].frames.Some?
        invariant 0 <= k <= Storable(specs) && StoredPrefix(specs, k, old(animations), made)
        invariant forall i :: 0 <= i < k ==> fresh(made[i])
        invariant forall i :: 0 <= i < k ==> Built(made[i], specs[i], Info())
      {
        StorableNext(specs, k);
        var a := StoreNext(specs, k, old(animations), made);
        made := made + [a];
        k := k + 1;
      }
      if k < |specs| {
        StorableNext(specs, k);
        r := Err(MissingFrames(specs[k].name));
      } else {
        r := Ok(());
      }
    }
  }

  /**
   * `SpriteSheet({image, frameWidth, frameHeight, spacing, margin, animations})`:
   * without an image it throws; otherwise the sheet is built and any
   * animations given are created on it, whose error is thrown in turn.
   */
  method NewSpriteSheet(image: Option<Image>, frameWidth: real, frameHeight: real, spacing: Option<real>,
                        margin: Option<real>, specs: Option<seq<AnimationSpec>>) returns (r: Result<SpriteSheet, string>)
    requires specs.Some? ==> DistinctNames(specs.value)
    ensures image.None? ==> r == Err("You must provide an Image for the SpriteSheet")
    ensures r.Ok? <==> image.Some? && (specs.Some? ==> Storable(specs.value) == |specs.value|)
    ensures r.Ok? ==> fresh(r.value) && r.value.image == image.value &&
                      r.value.cols == FramesPerRow(image.value.width, r.value.frame.margin, frameWidth)
    ensures r.Ok? && specs.None? ==> r.value.animations == map[]
    ensures r.Ok? && specs.Some? ==> r.value.animations.Keys == Names(specs.value)
  {
    if image.None? {
      return Err("You must provide an Image for the SpriteSheet");
    }
    var sheet := new SpriteSheet(image.value, frameWidth, frameHeight, spacing, margin);
    if specs.Some? {
      var made := sheet.CreateAnimations(specs.value);
      if made.Err? {
        return Err(made.error);
      }
      assert specs.value[..|specs.value|] == specs.value;
    }
    r := Ok(sheet);
  }
}
