/** The stateful half of FreshDocs/src/theme/fresh_background.js: the
    canvas `makePattern` draws on, the element whose style it writes, and
    the effect that resolves that element and keeps the pattern current
    through fonts loading, theme changes and resizes. */
module Background {
  import opened Wrappers
  import opened Seqs
  import opened Decimal
  import opened FreshPattern

  /** One `ctx.fillText(text, x, y)` call. */
  datatype FillTextCall = FillTextCall(text: string, x: int, y: int)

  /** Everything `canvas.toDataURL` encodes: the backing size, the context
      state and the text drawn, in order. */
  datatype Bitmap = Bitmap(
    width: int, height: int,
    scaleX: real, scaleY: real,
    fillStyle: string, font: string, textBaseline: string,
    drawn: seq<FillTextCall>)

  /** A canvas element together with its 2D context. The pixels are
      represented by the log of `fillText` calls. */
  class Canvas {
    var width: int
    var height: int
    var scaleX: real
    var scaleY: real
    var fillStyle: string
    var font: string
    var textBaseline: string
    var drawn: seq<FillTextCall>

    /** `document.createElement('canvas')`: a 300 by 150 canvas whose context
        has the default state and nothing drawn. */
    constructor ()
      ensures width == 300 && height == 150 && scaleX == 1.0 && scaleY == 1.0
      ensures fillStyle == "#000000" && font == "10px sans-serif" && textBaseline == "alphabetic"
      ensures drawn == []
    {
      width, height := 300, 150;
      scaleX, scaleY := 1.0, 1.0;
      fillStyle, font, textBaseline := "#000000", "10px sans-serif", "alphabetic";
      drawn := [];
    }

    function Snapshot(): Bitmap
      reads this
    {
      Bitmap(width, height, scaleX, scaleY, fillStyle, font, textBaseline, drawn)
    }

    /** `ctx.scale(sx, sy)`: later drawing coordinates are multiplied by the factors. */
    method Scale(sx: real, sy: real)
      modifies this
      ensures Snapshot() == old(Snapshot()).(scaleX := old(scaleX) * sx, scaleY := old(scaleY) * sy)
    {
      scaleX, scaleY := scaleX * sx, scaleY * sy;
    }

    /** `ctx.fillText(text, x, y)`. */
    method FillText(text: string, x: int, y: int)
      modifies this
      ensures Snapshot() == old(Snapshot()).(drawn := old(drawn) + [FillTextCall(text, x, y)])
    {
      drawn := drawn + [FillTextCall(text, x, y)];
    }
  }

  /** One `el.style.setProperty(name, value)` call. */
  datatype StyleWrite = StyleWrite(name: string, value: string)

  /** The target element's inline style: its custom properties, and the log of
      every `setProperty` call made on it. */
  class Surface {
    var style: map<string, string>
    var writes: seq<StyleWrite>

    constructor (style: map<string, string>)
      ensures this.style == style && writes == []
    {
      this.style := style;
      writes := [];
    }

    method SetProperty(name: string, value: string)
      modifies this
      ensures style == old(style)[name := value]
      ensures writes == old(writes) + [StyleWrite(name, value)]
    {
      style := style[name := value];
      writes := writes + [StyleWrite(name, value)];
    }
  }

  /** The style that results from a sequence of `setProperty` calls: each
      write replaces the property it names. */
  function Applied(style: map<string, string>, ws: seq<StyleWrite>): (r: map<string, string>)
    ensures ws == [] ==> r == style
    ensures ws != [] ==> ws[|ws| - 1].name in r && r[ws[|ws| - 1].name] == ws[|ws| - 1].value
  {
    if ws == [] then style
    else
      var w := ws[|ws| - 1];
      Applied(style, ws[..|ws| - 1])[w.name := w.value]
  }

  /** Last write wins: applying writes is overriding the old style with the
      last value written to each property. */
  lemma {:induction false} AppliedOverrides(style: map<string, string>, ws: seq<StyleWrite>)
    ensures Applied(style, ws) == style + Applied(map[], ws)
  {
    if ws != [] {
      var w := ws[|ws| - 1];
      AppliedOverrides(style, ws[..|ws| - 1]);
      var inner := Applied(map[], ws[..|ws| - 1]);
      assert (style + inner)[w.name := w.value] == style + inner[w.name := w.value];
    }
  }

  /** Applying the same writes a second time changes nothing. */
  lemma ReapplyIsIdempotent(style: map<string, string>, ws: seq<StyleWrite>)
    ensures Applied(Applied(style, ws), ws) == Applied(style, ws)
  {
    AppliedOverrides(style, ws);
    AppliedOverrides(Applied(style, ws), ws);
    var m := Applied(map[], ws);
    assert (style + m) + m == style + m;
  }

  lemma AppliedSnoc(style: map<string, string>, ws: seq<StyleWrite>, w: StyleWrite)
    ensures Applied(style, ws + [w]) == Applied(style, ws)[w.name := w.value]
  {
    assert (ws + [w])[..|ws + [w]| - 1] == ws;
  }

  /** A property no write names keeps its presence and its value. */
  lemma {:induction false} AppliedElsewhere(style: map<string, string>, ws: seq<StyleWrite>, p: string)
    requires forall j :: 0 <= j < |ws| ==> ws[j].name != p
    ensures p in Applied(style, ws) <==> p in style
    ensures p in style ==> Applied(style, ws)[p] == style[p]
  {
    if ws != [] {
      var ws' := ws[..|ws| - 1];
      assert forall j :: 0 <= j < |ws'| ==> ws'[j] == ws[j];
      AppliedElsewhere(style, ws', p);
    }
  }

  /** A property holds the value of the last write that names it. */
  lemma {:induction false} AppliedLastWrite(style: map<string, string>, ws: seq<StyleWrite>, i: nat)
    requires i < |ws|
    requires forall j :: i < j < |ws| ==> ws[j].name != ws[i].name
    ensures ws[i].name in Applied(style, ws) && Applied(style, ws)[ws[i].name] == ws[i].value
  {
    var ws' := ws[..|ws| - 1];
    assert forall j :: 0 <= j < |ws'| ==> ws'[j] == ws[j];
    if i < |ws| - 1 {
      AppliedLastWrite(style, ws', i);
    }
  }

  /** What a render can see of the browser when it runs. */
  datatype Env = Env(
    theme: Option<string>,            // the root's data-theme attribute
    probeContext: bool,               // the probe canvas yields a 2D context
    unitWidth: real,                  // probe.measureText(unit).width
    devicePixelRatio: Option<real>,   // window.devicePixelRatio, None when undefined
    canvasContext: bool,              // the drawing canvas yields a 2D context
    toDataUrl: Bitmap -> string,      // canvas.toDataURL('image/png')
    scaleText: string)                // the printed rotation-compensation scale
  {
    /** A measured text width is positive. */
    predicate Valid()
    {
      unitWidth > 0.0
    }

    /** Both 2D contexts are available, so makePattern reaches its writes. */
    predicate Draws()
    {
      probeContext && canvasContext
    }
  }

  /** The calls of the draw loop for a given line of text. */
  function DrawnLines(line: string): (calls: seq<FillTextCall>)
    ensures |calls| == LINE_COUNT
    ensures forall i :: 0 <= i < |calls| ==> calls[i].text == line && calls[i].x == 0
    ensures calls[0].y == -LINE_STEP
    ensures forall i :: 0 < i < |calls| ==> calls[i].y == calls[i - 1].y + LINE_STEP
    ensures calls[|calls| - 1].y <= TILE_H < calls[|calls| - 1].y + LINE_STEP
  {
    seq(LINE_COUNT, i requires 0 <= i => FillTextCall(line, 0, LineY(i)))
  }

  /** The line of text drawn on every row: the unit repeated `k` times. */
  function PatternLine(unitW: real): (line: string)
    requires unitW > 0.0
    ensures |line| == RepeatCount(unitW) * |Unit()|
  {
    Repeat(Unit(), RepeatCount(unitW))
  }

  /** Each block of `|Unit()|` characters of the line is the unit. */
  lemma PatternLineIsUnits(unitW: real, j: nat, o: nat)
    requires unitW > 0.0 && j < RepeatCount(unitW) && o < |Unit()|
    ensures j * |Unit()| + o < |PatternLine(unitW)|
    ensures PatternLine(unitW)[j * |Unit()| + o] == Unit()[o]
  {
    RepeatBlock(Unit(), RepeatCount(unitW), j, o);
  }

  /** The bitmap makePattern encodes for the environment. */
  function PatternBitmap(env: Env): (b: Bitmap)
    requires env.Valid()
    ensures b.width >= TileWidth(env.unitWidth) && b.height >= TILE_H
    ensures b.scaleX == b.scaleY == EffectiveDpr(env.devicePixelRatio)
    ensures b.fillStyle == ColorByTheme(env.theme) && b.font == FONT && b.textBaseline == "top"
    ensures b.drawn == DrawnLines(PatternLine(env.unitWidth))
  {
    var dpr := EffectiveDpr(env.devicePixelRatio);
    BlankTile(env).(scaleX := dpr, scaleY := dpr, fillStyle := ColorByTheme(env.theme), font := FONT,
                    textBaseline := "top", drawn := DrawnLines(PatternLine(env.unitWidth)))
  }

  /** The names of the five custom properties, in the order they are written. */
  const PATTERN_PROPERTIES: seq<string> := ["--fresh-bg", "--tileW", "--tileH", "--fresh-angle", "--fresh-scale"]

  /** The `setProperty` calls of a render, given the data URL of the tile,
      the tile width and the printed scale. */
  function StyleWrites(url: string, tileW: nat, scaleText: string): (ws: seq<StyleWrite>)
    ensures |ws| == |PATTERN_PROPERTIES|
    ensures forall i :: 0 <= i < |ws| ==> ws[i].name == PATTERN_PROPERTIES[i]
    ensures ws[0].value == "url(" + url + ")"
    ensures ws[1].value == NatToString(tileW) + "px"
    ensures ws[2].value == "200px" && ws[3].value == "-32deg"
    ensures ws[4].value == scaleText
  {
    PrintedConstants();
    [ StyleWrite("--fresh-bg", "url(" + url + ")"),
      StyleWrite("--tileW", NatToString(tileW) + "px"),
      StyleWrite("--tileH", IntToString(TILE_H) + "px"),
      StyleWrite("--fresh-angle", IntToString(ANGLE_DEG) + "deg"),
      StyleWrite("--fresh-scale", scaleText) ]
  }

  /** The `setProperty` calls of a render that reaches its writes. */
  function PatternWrites(env: Env): (ws: seq<StyleWrite>)
    requires env.Valid()
    ensures |ws| == |PATTERN_PROPERTIES|
    ensures forall i :: 0 <= i < |ws| ==> ws[i].name == PATTERN_PROPERTIES[i]
    ensures ws[0].value == "url(" + env.toDataUrl(PatternBitmap(env)) + ")"
    ensures ws[2].value == "200px" && ws[3].value == "-32deg"
    ensures ws[4].value == env.scaleText
  {
    StyleWrites(env.toDataUrl(PatternBitmap(env)), TileWidth(env.unitWidth), env.scaleText)
  }

  /** A theme switch changes only the fill colour of the tile: its size,
      scale, font, baseline and rows stay the same, and so do every write
      after `--fresh-bg` (the tile width and height, the angle and the scale). */
  lemma ThemeOnlyChangesFill(env: Env, t: Option<string>)
    requires env.Valid()
    ensures PatternBitmap(env.(theme := t)) == PatternBitmap(env).(fillStyle := ColorByTheme(t))
    ensures PatternWrites(env.(theme := t))[1..] == PatternWrites(env)[1..]
  {
  }

  /** `--tileW` is the tile width in decimal digits followed by `px`. */
  lemma TileWidthProperty(env: Env)
    requires env.Valid()
    ensures var v := PatternWrites(env)[1].value;
      |v| > 2 && v[|v| - 2..] == "px" &&
      (forall i :: 0 <= i < |v| - 2 ==> IsDigit(v[i])) &&
      DigitsValue(v[..|v| - 2]) == TileWidth(env.unitWidth)
  {
    var digits := NatToString(TileWidth(env.unitWidth));
    var v := digits + "px";
    assert v[..|v| - 2] == digits;
    NatToStringRoundTrip(TileWidth(env.unitWidth));
  }

  /** A successful render sets exactly the five properties to the values
      written and leaves every other property as it was. */
  lemma PatternStyle(style: map<string, string>, env: Env, p: string)
    requires env.Valid()
    ensures p in Applied(style, PatternWrites(env)) <==> p in style || p in PATTERN_PROPERTIES
    ensures p in style && p !in PATTERN_PROPERTIES ==> Applied(style, PatternWrites(env))[p] == style[p]
    ensures forall i :: 0 <= i < |PatternWrites(env)| ==>
      PATTERN_PROPERTIES[i] in Applied(style, PatternWrites(env)) &&
      Applied(style, PatternWrites(env))[PATTERN_PROPERTIES[i]] == PatternWrites(env)[i].value
  {
    PropertyWritesApplied(style, PatternWrites(env), p);
  }

  /** Applying one write to each pattern property, in order. */
  lemma PropertyWritesApplied(style: map<string, string>, ws: seq<StyleWrite>, p: string)
    requires |ws| == |PATTERN_PROPERTIES|
    requires forall i :: 0 <= i < |ws| ==> ws[i].name == PATTERN_PROPERTIES[i]
    ensures p in Applied(style, ws) <==> p in style || p in PATTERN_PROPERTIES
    ensures p in style && p !in PATTERN_PROPERTIES ==> Applied(style, ws)[p] == style[p]
    ensures forall i :: 0 <= i < |ws| ==>
      PATTERN_PROPERTIES[i] in Applied(style, ws) && Applied(style, ws)[PATTERN_PROPERTIES[i]] == ws[i].value
  {
    assert NoDup(PATTERN_PROPERTIES);
    forall i | 0 <= i < |ws|
      ensures PATTERN_PROPERTIES[i] in Applied(style, ws)
      ensures Applied(style, ws)[PATTERN_PROPERTIES[i]] == ws[i].value
    {
      AppliedLastWrite(style, ws, i);
    }
    if p !in PATTERN_PROPERTIES {
      AppliedElsewhere(style, ws, p);
    }
  }

  /** `makePattern(heroEl)`. Each guard that returns early (no element, no
      probe context, no drawing context) returns before any write; otherwise
      the five properties are written, in order, from the environment alone. */
  method MakePattern(heroEl: Surface?, env: Env)
    requires env.Valid()
    modifies heroEl
    ensures heroEl != null && env.Draws() ==>
      heroEl.writes == old(heroEl.writes) + PatternWrites(env) &&
      heroEl.style == Applied(old(heroEl.style), PatternWrites(env))
    ensures heroEl != null && !env.Draws() ==> unchanged(heroEl)
  {
    if heroEl == null {
      return;
    }
    if !env.probeContext {
      return;
    }
    var canvas := TileCanvas(env);
    if !env.canvasContext {
      return;
    }
    PaintTile(canvas, env);
    var url := env.toDataUrl(canvas.Snapshot());
    WritePattern(heroEl, url, TileWidth(env.unitWidth), env.scaleText);
  }

  /** Rendering again in the same environment rewrites the same values:
      the style is what a single render leaves. */
  method RenderTwice(heroEl: Surface, env: Env)
    requires env.Valid() && env.Draws()
    modifies heroEl
    ensures heroEl.style == Applied(old(heroEl.style), PatternWrites(env))
    ensures heroEl.writes == old(heroEl.writes) + PatternWrites(env) + PatternWrites(env)
  {
    MakePattern(heroEl, env);
    MakePattern(heroEl, env);
    ReapplyIsIdempotent(old(heroEl.style), PatternWrites(env));
  }

  /** The canvas before drawing: backing size `tileW * dpr` by `TILE_H * dpr`,
      default context state, nothing drawn. */
  function BlankTile(env: Env): (b: Bitmap)
    requires env.Valid()
    ensures b.width >= TileWidth(env.unitWidth) && b.height >= TILE_H
    ensures b.drawn == []
  {
    var dpr := EffectiveDpr(env.devicePixelRatio);
    Bitmap(BackingSize(TileWidth(env.unitWidth), dpr), BackingSize(TILE_H, dpr),
           1.0, 1.0, "#000000", "10px sans-serif", "alphabetic", [])
  }

  /** Measure the unit, compute `k`, `tileW` and `dpr`, and size a new canvas. */
  method TileCanvas(env: Env) returns (canvas: Canvas)
    requires env.Valid()
    ensures fresh(canvas) && canvas.Snapshot() == BlankTile(env)
  {
    var unitW := env.unitWidth;
    var tileW := TileWidth(unitW);
    var dpr := EffectiveDpr(env.devicePixelRatio);
    canvas := new Canvas();
    canvas.width := BackingSize(tileW, dpr);
    canvas.height := BackingSize(TILE_H, dpr);
  }

  /** Scale by `dpr`, set the fill colour, font and baseline, and draw the rows. */
  method PaintTile(canvas: Canvas, env: Env)
    requires env.Valid() && canvas.Snapshot() == BlankTile(env)
    modifies canvas
    ensures canvas.Snapshot() == PatternBitmap(env)
  {
    var dpr := EffectiveDpr(env.devicePixelRatio);
    ghost var blank := BlankTile(env);
    canvas.Scale(dpr, dpr);
    canvas.fillStyle := ColorByTheme(env.theme);
    canvas.font := FONT;
    canvas.textBaseline := "top";
    assert canvas.Snapshot() == blank.(scaleX := dpr, scaleY := dpr, fillStyle := ColorByTheme(env.theme),
                                       font := FONT, textBaseline := "top");
    var line := Repeat(Unit(), RepeatCount(env.unitWidth));
    DrawLines(canvas, line);
  }

  /** The five `setProperty` calls, given the encoded bitmap. */
  method WritePattern(heroEl: Surface, url: string, tileW: nat, scaleText: string)
    modifies heroEl
    ensures heroEl.writes == old(heroEl.writes) + StyleWrites(url, tileW, scaleText)
    ensures heroEl.style == Applied(old(heroEl.style), StyleWrites(url, tileW, scaleText))
  {
    ghost var style0, writes0 := heroEl.style, heroEl.writes;
    ghost var done: seq<StyleWrite> := [];
    heroEl.SetProperty("--fresh-bg", "url(" + url + ")");
    AppliedSnoc(style0, done, heroEl.writes[|heroEl.writes| - 1]);
    done := done + [heroEl.writes[|heroEl.writes| - 1]];
    heroEl.SetProperty("--tileW", NatToString(tileW) + "px");
    AppliedSnoc(style0, done, heroEl.writes[|heroEl.writes| - 1]);
    done := done + [heroEl.writes[|heroEl.writes| - 1]];
    heroEl.SetProperty("--tileH", IntToString(TILE_H) + "px");
    AppliedSnoc(style0, done, heroEl.writes[|heroEl.writes| - 1]);
    done := done + [heroEl.writes[|heroEl.writes| - 1]];
    heroEl.SetProperty("--fresh-angle", IntToString(ANGLE_DEG) + "deg");
    AppliedSnoc(style0, done, heroEl.writes[|heroEl.writes| - 1]);
    done := done + [heroEl.writes[|heroEl.writes| - 1]];
    heroEl.SetProperty("--fresh-scale", scaleText);
    AppliedSnoc(style0, done, heroEl.writes[|heroEl.writes| - 1]);
    done := done + [heroEl.writes[|heroEl.writes| - 1]];
    assert done == StyleWrites(url, tileW, scaleText);
  }

  /** The draw loop (fresh_background.js:48-50): one line drawn at the left
      edge for each row from one step above the tile down to its bottom. */
  method DrawLines(ctx: Canvas, line: string)
    modifies ctx
    ensures ctx.Snapshot() == old(ctx.Snapshot()).(drawn := old(ctx.drawn) + DrawnLines(line))
  {
    var y := -LINE_STEP;
    ghost var i: nat := 0;
    while y <= TILE_H
      invariant i <= LINE_COUNT && y == LineY(i)
      invariant ctx.Snapshot() == old(ctx.Snapshot()).(drawn := old(ctx.drawn) + DrawnLines(line)[..i])
      decreases TILE_H - y
    {
      RowsOfTheDrawLoop(i);
      ctx.FillText(line, 0, y);
      assert DrawnLines(line)[..i + 1] == DrawnLines(line)[..i] + [FillTextCall(line, 0, y)];
      y := y + LINE_STEP;
      i := i + 1;
    }
    RowsOfTheDrawLoop(i);
    assert DrawnLines(line)[..i] == DrawnLines(line);
  }

  /** The selectors tried, in order, to find the element that gets the pattern. */
  const HERO_SELECTORS: seq<string> := [".heroWrapper", "[class*=\"heroWrapper\"]", ".heroBanner", ".hero"]

  /** The first non-null `document.querySelector` result among the selectors. */
  function FirstMatch(selectors: seq<string>, query: string -> Surface?): (el: Surface?)
    ensures el == null <==> forall i :: 0 <= i < |selectors| ==> query(selectors[i]) == null
    ensures el != null ==> exists i :: 0 <= i < |selectors| && query(selectors[i]) == el &&
                                       forall j :: 0 <= j < i ==> query(selectors[j]) == null
  {
    if selectors == [] then null
    else if query(selectors[0]) != null then query(selectors[0])
    else
      var rest := FirstMatch(selectors[1..], query);
      assert forall i :: 1 <= i < |selectors| ==> selectors[i] == selectors[1..][i - 1];
      rest
  }

  /** The `hero` of the effect: `.heroWrapper`, else `[class*="heroWrapper"]`,
      else `.heroBanner`, else `.hero`, else null. */
  function ResolveHero(query: string -> Surface?): (el: Surface?)
    ensures query(".heroWrapper") != null ==> el == query(".heroWrapper")
    ensures (query(".heroWrapper") == null && query("[class*=\"heroWrapper\"]") != null) ==>
      el == query("[class*=\"heroWrapper\"]")
    ensures (query(".heroWrapper") == null && query("[class*=\"heroWrapper\"]") == null &&
             query(".heroBanner") != null) ==> el == query(".heroBanner")
    ensures (query(".heroWrapper") == null && query("[class*=\"heroWrapper\"]") == null &&
             query(".heroBanner") == null) ==> el == query(".hero")
  {
    FirstMatch(HERO_SELECTORS, query)
  }

  function Objects(el: Surface?): set<object>
  {
    if el == null then {} else {el}
  }

  /** The effect of the FreshBackground component between mount and cleanup:
      the element it resolved, and which of its subscriptions are live. */
  class FreshBackground {
    var hero: Surface?
    /** The MutationObserver on the root's data-theme attribute is connected. */
    var observing: bool
    /** The window resize listener is registered. */
    var listening: bool
    /** `document.fonts.ready.then(render)` is registered and has not run. */
    var fontsPending: bool

    /** Mount: resolve the element once, render now or when the fonts are
        ready, then connect the observer and add the resize listener. */
    constructor Mount(query: string -> Surface?, fontsReadyAvailable: bool, env: Env)
      requires env.Valid()
      modifies Objects(ResolveHero(query))
      ensures hero == ResolveHero(query)
      ensures observing && listening && fontsPending == fontsReadyAvailable
      ensures var h := ResolveHero(query);
        h != null && !fontsReadyAvailable && env.Draws() ==>
          h.writes == old(h.writes) + PatternWrites(env) &&
          h.style == Applied(old(h.style), PatternWrites(env))
      ensures var h := ResolveHero(query);
        h != null && (fontsReadyAvailable || !env.Draws()) ==> unchanged(h)
    {
      hero := ResolveHero(query);
      observing, listening, fontsPending := false, false, false;
      new;
      if fontsReadyAvailable {
        fontsPending := true;
      } else {
        MakePattern(hero, env);
      }
      observing := true;
      listening := true;
    }

    /** A mutation of a root attribute. The observer only reports data-theme,
        and only while connected; each report renders once. */
    method RootAttributeChanged(attribute: string, env: Env)
      requires env.Valid()
      modifies hero
      ensures hero != null && observing && attribute == "data-theme" && env.Draws() ==>
        hero.writes == old(hero.writes) + PatternWrites(env) &&
        hero.style == Applied(old(hero.style), PatternWrites(env))
      ensures hero != null && !(observing && attribute == "data-theme" && env.Draws()) ==> unchanged(hero)
    {
      if observing && attribute == "data-theme" {
        MakePattern(hero, env);
      }
    }

    /** A window resize; renders once while the listener is registered. */
    method Resized(env: Env)
      requires env.Valid()
      modifies hero
      ensures hero != null && listening && env.Draws() ==>
        hero.writes == old(hero.writes) + PatternWrites(env) &&
        hero.style == Applied(old(hero.style), PatternWrites(env))
      ensures hero != null && !(listening && env.Draws()) ==> unchanged(hero)
    {
      if listening {
        MakePattern(hero, env);
      }
    }

    /** The fonts-ready promise settles and the deferred initial render runs.
        It does not look at whether the effect was cleaned up meanwhile. */
    method FontsReady(env: Env)
      requires env.Valid()
      modifies this`fontsPending, hero
      ensures !fontsPending
      ensures hero != null && old(fontsPending) && env.Draws() ==>
        hero.writes == old(hero.writes) + PatternWrites(env) &&
        hero.style == Applied(old(hero.style), PatternWrites(env))
      ensures hero != null && !(old(fontsPending) && env.Draws()) ==> unchanged(hero)
    {
      if fontsPending {
        fontsPending := false;
        MakePattern(hero, env);
      }
    }

    /** The effect's cleanup: disconnect the observer and remove the listener. */
    method Cleanup()
      modifies this`observing, this`listening
      ensures !observing && !listening
    {
      observing := false;
      listening := false;
    }
  }

  /** After cleanup, a theme change and a resize write nothing. */
  method TeardownThenSignals(c: FreshBackground, env: Env)
    requires env.Valid()
    modifies c, c.hero
    ensures !c.observing && !c.listening && c.hero == old(c.hero)
    ensures c.fontsPending == old(c.fontsPending)
    ensures c.hero != null ==> unchanged(c.hero)
  {
    c.Cleanup();
    c.RootAttributeChanged("data-theme", env);
    c.Resized(env);
  }

  /** A render deferred until the fonts are ready still writes when the
      fonts settle after cleanup. */
  method LateFontsRender(c: FreshBackground, env: Env)
    requires env.Valid() && env.Draws() && c.fontsPending && c.hero != null
    modifies c, c.hero
    ensures !c.observing && !c.listening && c.hero == old(c.hero)
    ensures c.hero.writes == old(c.hero.writes) + PatternWrites(env)
  {
    c.Cleanup();
    c.FontsReady(env);
  }
}
