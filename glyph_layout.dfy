/** The text layout of D3DRenderer::renderString (src/d3drenderer.cpp): how a
    list of strings becomes one flat list of textured glyph quads. The atlas
    is one row of 26 glyphs, 'A' to 'Z', each 2002/26 pixels wide and 150
    high. Only the upper-case letters are drawn; any other character draws
    nothing but still takes up its place on the line. */
module GlyphLayout {
  import opened DirectXMath
  import Sprite
  import Font

  /** lWidth and lHeight: the size of one glyph in the atlas, in texels. */
  const LetterWidth: real := 2002.0 / 26.0
  const LetterHeight: real := 150.0
  /** lAspect: glyph width over glyph height. */
  const LetterAspect: real := LetterWidth / LetterHeight
  /** Number of glyphs in the atlas strip. */
  const AtlasGlyphs: int := 26

  /** idx = c - 'A': the character's place in the atlas, if it has one. */
  function AtlasIndex(c: char): int
  {
    c as int - 'A' as int
  }

  /** The characters that are drawn: idx in 0..25. */
  predicate IsGlyph(c: char)
  {
    0 <= AtlasIndex(c) <= 25
  }

  /** lVWidth: the on-screen width of one glyph, which is also the advance
      from one character slot to the next. */
  function Advance(s: Font.String): real
  {
    s.fontSize as real * LetterAspect
  }

  /** iOffX: the left edge of character slot i. */
  function SlotLeft(s: Font.String, i: nat): real
  {
    s.pxOffset.x as real + Advance(s) * i as real
  }

  /** The six vertices of the quad for the letter at index i: two triangles,
      top-right, bottom-right, bottom-left and bottom-left, top-left,
      top-right. */
  function Quad(s: Font.String, i: nat): (q: seq<Sprite.Vertex>)
    requires i < |s.data| && IsGlyph(s.data[i])
    ensures |q| == 6
  {
    var idx := AtlasIndex(s.data[i]);
    var tStartX := idx as real * 1.0 / 26.0;
    var tEndX := (idx + 1) as real * 1.0 / 26.0;
    var offY := s.pxOffset.y as real;
    var lVWidth := Advance(s);
    var lVHeight := s.fontSize as real;
    var iOffX := SlotLeft(s, i);
    [ Sprite.Vertex(Float2(iOffX + lVWidth, offY + lVHeight), Float2(tEndX, 0.0)),
      Sprite.Vertex(Float2(iOffX + lVWidth, offY), Float2(tEndX, 1.0)),
      Sprite.Vertex(Float2(iOffX, offY), Float2(tStartX, 1.0)),
      Sprite.Vertex(Float2(iOffX, offY), Float2(tStartX, 1.0)),
      Sprite.Vertex(Float2(iOffX, offY + lVHeight), Float2(tStartX, 0.0)),
      Sprite.Vertex(Float2(iOffX + lVWidth, offY + lVHeight), Float2(tEndX, 0.0)) ]
  }

  /** What character i contributes: its quad, or nothing. */
  function Glyph(s: Font.String, i: nat): seq<Sprite.Vertex>
    requires i < |s.data|
  {
    if IsGlyph(s.data[i]) then Quad(s, i) else []
  }

  /** The vertices of the first n characters of one string. */
  function LayoutPrefix(s: Font.String, n: nat): seq<Sprite.Vertex>
    requires n <= |s.data|
  {
    if n == 0 then [] else LayoutPrefix(s, n - 1) + Glyph(s, n - 1)
  }

  function LayoutString(s: Font.String): seq<Sprite.Vertex>
  {
    LayoutPrefix(s, |s.data|)
  }

  /** The whole vertex list for a frame: each string's vertices, in order. */
  function Layout(ss: seq<Font.String>): seq<Sprite.Vertex>
  {
    if |ss| == 0 then [] else Layout(ss[..|ss| - 1]) + LayoutString(ss[|ss| - 1])
  }

  /** The number of drawable letters in a run of characters. */
  function LettersIn(cs: string): nat
  {
    if |cs| == 0 then 0 else LettersIn(cs[..|cs| - 1]) + (if IsGlyph(cs[|cs| - 1]) then 1 else 0)
  }

  /** The number of drawable letters across all strings. */
  function Letters(ss: seq<Font.String>): nat
  {
    if |ss| == 0 then 0 else Letters(ss[..|ss| - 1]) + LettersIn(ss[|ss| - 1].data)
  }

  /** Character i extends the prefix layout by its quad when it is a glyph,
      and leaves it as it was otherwise. */
  lemma LayoutPrefixSnoc(s: Font.String, i: nat)
    requires i < |s.data|
    ensures IsGlyph(s.data[i]) ==> LayoutPrefix(s, i + 1) == LayoutPrefix(s, i) + Quad(s, i)
    ensures !IsGlyph(s.data[i]) ==> LayoutPrefix(s, i + 1) == LayoutPrefix(s, i)
  {
  }

  /** The layout of the first s + 1 strings extends that of the first s by
      the next string's vertices. */
  lemma LayoutSnoc(ss: seq<Font.String>, n: nat)
    requires n < |ss|
    ensures Layout(ss[..n + 1]) == Layout(ss[..n]) + LayoutString(ss[n])
  {
    assert ss[..n + 1][..n] == ss[..n];
  }

  /** Each letter gives six vertices, anything else none. */
  lemma {:induction false} LayoutPrefixLength(s: Font.String, n: nat)
    requires n <= |s.data|
    ensures |LayoutPrefix(s, n)| == 6 * LettersIn(s.data[..n])
  {
    if n > 0 {
      LayoutPrefixLength(s, n - 1);
      assert s.data[..n][..n - 1] == s.data[..n - 1];
    }
  }

  /** The frame's vertex count is six times the number of letters 'A'..'Z'
      over all strings. */
  lemma {:induction false} LayoutLength(ss: seq<Font.String>)
    ensures |Layout(ss)| == 6 * Letters(ss)
  {
    if |ss| > 0 {
      LayoutLength(ss[..|ss| - 1]);
      var last := ss[|ss| - 1];
      LayoutPrefixLength(last, |last.data|);
      assert last.data[..|last.data|] == last.data;
    }
  }

  /** The quad of the letter at index i of a string is the six vertices from
      6 * (the number of letters before i) on: letters keep their order and
      nothing else lands between them. */
  lemma {:induction false} QuadInPrefix(s: Font.String, n: nat, i: nat)
    requires i < n <= |s.data| && IsGlyph(s.data[i])
    ensures 6 * LettersIn(s.data[..i]) + 6 <= |LayoutPrefix(s, n)|
    ensures LayoutPrefix(s, n)[6 * LettersIn(s.data[..i])..6 * LettersIn(s.data[..i]) + 6] == Quad(s, i)
  {
    if i < n - 1 {
      QuadInPrefix(s, n - 1, i);
      LettersBefore(s.data, i, n - 1);
      LayoutPrefixLength(s, n - 1);
      PrefixKeepsSlice(s, n - 1, 6 * LettersIn(s.data[..i]));
    } else {
      QuadAtEnd(s, i);
    }
  }

  /** The quad of a letter is the last six vertices of the prefix it ends. */
  lemma QuadAtEnd(s: Font.String, i: nat)
    requires i < |s.data| && IsGlyph(s.data[i])
    ensures 6 * LettersIn(s.data[..i]) + 6 <= |LayoutPrefix(s, i + 1)|
    ensures LayoutPrefix(s, i + 1)[6 * LettersIn(s.data[..i])..6 * LettersIn(s.data[..i]) + 6] == Quad(s, i)
  {
    LayoutPrefixLength(s, i);
    LayoutPrefixSnoc(s, i);
    SliceAfter(LayoutPrefix(s, i), Quad(s, i));
  }

  /** Laying out one more character leaves the vertices already laid out. */
  lemma PrefixKeepsSlice(s: Font.String, n: nat, lo: nat)
    requires n < |s.data| && lo + 6 <= |LayoutPrefix(s, n)|
    ensures LayoutPrefix(s, n + 1)[lo..lo + 6] == LayoutPrefix(s, n)[lo..lo + 6]
  {
    SliceOfAppend(LayoutPrefix(s, n), Glyph(s, n), lo, lo + 6);
  }

  /** A slice of the first part of a concatenation. */
  lemma SliceOfAppend<T>(a: seq<T>, b: seq<T>, lo: nat, hi: nat)
    requires lo <= hi <= |a|
    ensures (a + b)[lo..hi] == a[lo..hi]
  {
  }

  /** The second part of a concatenation, as a slice. */
  lemma SliceAfter<T>(a: seq<T>, b: seq<T>)
    ensures (a + b)[|a|..|a| + |b|] == b
  {
  }

  /** A letter at index i counts in every prefix longer than i. */
  lemma LettersBefore(cs: string, i: nat, n: nat)
    requires i < n <= |cs| && IsGlyph(cs[i])
    ensures LettersIn(cs[..i]) < LettersIn(cs[..n])
  {
    LettersMonotone(cs, i + 1, n);
    assert cs[..i + 1][..i] == cs[..i];
  }

  /** Letters counted in a longer prefix are at least those of a shorter one. */
  lemma {:induction false} LettersMonotone(cs: string, m: nat, n: nat)
    requires m <= n <= |cs|
    ensures LettersIn(cs[..m]) <= LettersIn(cs[..n])
  {
    if m < n {
      LettersMonotone(cs, m, n - 1);
      assert cs[..n][..n - 1] == cs[..n - 1];
    }
  }

  /** Across strings: the quad of the letter at index i of string j is the
      six vertices from 6 * (letters of strings 0..j-1 + letters of string j
      before i) on. */
  lemma {:induction false} QuadInLayout(ss: seq<Font.String>, j: nat, i: nat)
    requires j < |ss| && i < |ss[j].data| && IsGlyph(ss[j].data[i])
    ensures 6 * (Letters(ss[..j]) + LettersIn(ss[j].data[..i])) + 6 <= |Layout(ss)|
    ensures Layout(ss)[6 * (Letters(ss[..j]) + LettersIn(ss[j].data[..i]))..6 * (Letters(ss[..j]) + LettersIn(ss[j].data[..i])) + 6]
      == Quad(ss[j], i)
  {
    var init := ss[..|ss| - 1];
    LayoutLength(init);
    if j < |ss| - 1 {
      QuadInLayout(init, j, i);
      assert init[..j] == ss[..j];
      assert init[j] == ss[j];
      LayoutKeepsSlice(ss, 6 * (Letters(ss[..j]) + LettersIn(ss[j].data[..i])));
    } else {
      assert ss[..j] == init;
      QuadInPrefix(ss[j], |ss[j].data|, i);
      LayoutLastSlice(ss, 6 * LettersIn(ss[j].data[..i]));
    }
  }

  /** Laying out one more string leaves the vertices already laid out. */
  lemma LayoutKeepsSlice(ss: seq<Font.String>, lo: nat)
    requires |ss| > 0 && lo + 6 <= |Layout(ss[..|ss| - 1])|
    ensures Layout(ss)[lo..lo + 6] == Layout(ss[..|ss| - 1])[lo..lo + 6]
  {
    SliceOfAppend(Layout(ss[..|ss| - 1]), LayoutString(ss[|ss| - 1]), lo, lo + 6);
  }

  /** The last string's vertices follow those of the strings before it. */
  lemma LayoutLastSlice(ss: seq<Font.String>, lo: nat)
    requires |ss| > 0 && lo + 6 <= |LayoutString(ss[|ss| - 1])|
    ensures var before := |Layout(ss[..|ss| - 1])|;
      Layout(ss)[before + lo..before + lo + 6] == LayoutString(ss[|ss| - 1])[lo..lo + 6]
  {
    SliceAfterShift(Layout(ss[..|ss| - 1]), LayoutString(ss[|ss| - 1]), lo);
  }

  /** A slice of the second part of a concatenation. */
  lemma SliceAfterShift<T>(a: seq<T>, b: seq<T>, lo: nat)
    requires lo + 6 <= |b|
    ensures (a + b)[|a| + lo..|a| + lo + 6] == b[lo..lo + 6]
  {
  }

  /** Shape of one glyph quad. Its left edge is slot i of the line, whatever
      the characters before it are; it is Advance wide and fontSize high; the
      two triangles share the diagonal from vertex 1 to vertex 3. */
  lemma QuadShape(s: Font.String, i: nat)
    requires i < |s.data| && IsGlyph(s.data[i])
    ensures var q := Quad(s, i);
      var left := s.pxOffset.x as real + s.fontSize as real * LetterAspect * i as real;
      var bottom := s.pxOffset.y as real;
      && q[5] == q[0] && q[3] == q[2]
      && (forall k | 0 <= k < 6 ::
            (q[k].pos.x == left || q[k].pos.x == left + s.fontSize as real * LetterAspect)
            && (q[k].pos.y == bottom || q[k].pos.y == bottom + s.fontSize as real))
      && q[2].pos == Float2(left, bottom) && q[0].pos.x - q[2].pos.x == s.fontSize as real * LetterAspect
      && q[0].pos.y - q[2].pos.y == s.fontSize as real
  {
  }

  /** The atlas strip [idx/26, (idx+1)/26] is laid over the quad left to
      right, and the top row of the atlas at the top of the quad: the left
      vertices (2, 3, 4) take u = idx/26 and the right ones u = (idx+1)/26,
      the bottom vertices (1, 2, 3) take v = 1 and the top ones v = 0. */
  lemma QuadTexture(s: Font.String, i: nat)
    requires i < |s.data| && IsGlyph(s.data[i])
    ensures var q := Quad(s, i);
      var idx := AtlasIndex(s.data[i]);
      forall k | 0 <= k < 6 ::
        && q[k].tex.x == (if 2 <= k <= 4 then idx as real / 26.0 else (idx + 1) as real / 26.0)
        && q[k].tex.y == (if 1 <= k <= 3 then 1.0 else 0.0)
    ensures var q := Quad(s, i);
      var idx := AtlasIndex(s.data[i]);
      forall k | 0 <= k < 6 ::
        && q[k].tex.x * 26.0 * Advance(s) == idx as real * Advance(s) + (q[k].pos.x - SlotLeft(s, i))
        && (1.0 - q[k].tex.y) * s.fontSize as real == q[k].pos.y - s.pxOffset.y as real
  {
    var idx := AtlasIndex(s.data[i]) as real;
    var a := Advance(s);
    var h := s.fontSize as real;
    var start := idx * 1.0 / 26.0;
    var end := (idx + 1.0) * 1.0 / 26.0;
    assert start * 26.0 == idx;
    assert end * 26.0 == idx + 1.0;
    assert start * 26.0 * a == idx * a + 0.0;
    assert end * 26.0 * a == idx * a + a;
    assert (1.0 - 0.0) * h == h;
    assert (1.0 - 1.0) * h == 0.0;
  }
}
