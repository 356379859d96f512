/**
 * The visual guide of streamlit_app.py (`generar_mockup_visual`): a title, a
 * spacer, and then the four zones of a catalog page, each a box captioned in the
 * Normal style on its own background colour followed by a spacer.
 */
module Mockup {
  import opened Flowables

  const MOCKUP_TITLE := "📘 Guía Visual - Mockup de Catálogo"

  /** The `zonas` list: caption and background of each zone, top to bottom. */
  const ZONES: seq<(string, Color)> := [
    ("Zona: Logo / Cabecera", Color(0.9, 0.95, 1.0)),
    ("Zona: Título de categoría", Color(0.95, 1.0, 0.95)),
    ("Zona: Ficha de producto (imagen + datos)", Color(0.98, 0.98, 0.98)),
    ("Zona: Mini logo (opcional)", Color(1.0, 0.98, 0.9))
  ]

  /** Each zone's box followed by its spacer, in the order of `zones`. */
  function ZoneBlocks(zones: seq<(string, Color)>): seq<Flowable> {
    if zones == [] then []
    else ZoneBlocks(zones[..|zones| - 1]) + [Zone(zones[|zones| - 1].0, Normal, zones[|zones| - 1].1), Spacer]
  }

  /**
   * The guide, whatever the product data: its title and a spacer, then exactly
   * the four listed zones in order, each followed by a spacer.
   */
  function MockupStory(): (story: seq<Flowable>)
    ensures |ZONES| == 4 && |story| == 10
    ensures story[..2] == [Paragraph(MOCKUP_TITLE, Title), Spacer]
    ensures forall k :: 0 <= k < 4 ==>
      story[2 + 2 * k] == Zone(ZONES[k].0, Normal, ZONES[k].1) && story[3 + 2 * k] == Spacer
  {
    ZoneBlocksAt(ZONES);
    [Paragraph(MOCKUP_TITLE, Title), Spacer] + ZoneBlocks(ZONES)
  }

  /** `generar_mockup_visual` up to `doc.build(story)`. */
  method BuildMockup() returns (story: seq<Flowable>)
    ensures story == MockupStory()
  {
    story := [];
    story := story + [Paragraph(MOCKUP_TITLE, Title)];
    story := story + [Spacer];
    var i := 0;
    while i < |ZONES|
      invariant 0 <= i <= |ZONES|
      invariant story == [Paragraph(MOCKUP_TITLE, Title), Spacer] + ZoneBlocks(ZONES[..i])
    {
      var (caption, background) := ZONES[i];
      story := story + [Zone(caption, Normal, background)];
      story := story + [Spacer];
      assert ZONES[..i + 1][..i] == ZONES[..i];
      i := i + 1;
    }
    assert ZONES[..i] == ZONES;
  }

  /** Zone `k` of `zones` sits at position `2k`, its spacer right after it. */
  lemma {:induction false} ZoneBlocksAt(zones: seq<(string, Color)>)
    ensures |ZoneBlocks(zones)| == 2 * |zones|
    ensures forall k :: 0 <= k < |zones| ==>
      ZoneBlocks(zones)[2 * k] == Zone(zones[k].0, Normal, zones[k].1) && ZoneBlocks(zones)[2 * k + 1] == Spacer
  {
    if zones != [] {
      var init := zones[..|zones| - 1];
      ZoneBlocksAt(init);
      forall k | 0 <= k < |init|
        ensures init[k] == zones[k]
      {
      }
    }
  }
}
