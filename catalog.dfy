// The static catalog both Sidebars search
// (sparkify-meme-generator/src/utils/mockData.ts, lines 4-75): three
// background templates, three meme templates and one character.

module Catalog {
  import opened MemeTypes

  function Background(n: string): MemeTemplate
  {
    MemeTemplate("bg-" + n, "Background " + n, "/bg" + n + ".png", "/bg" + n + ".png",
                 "background", 800.0, 600.0)
  }

  const BackgroundTemplates: seq<MemeTemplate> := [Background("1"), Background("2"), Background("3")]

  const MemeTemplates: seq<MemeTemplate> := [
    MemeTemplate("meme-1", "Meme Template 1", "/meme1.jpg", "/meme1.jpg", "meme", 500.0, 500.0),
    MemeTemplate("meme-2", "Meme Template 2", "/meme2.webp", "/meme2.webp", "meme", 500.0, 500.0),
    MemeTemplate("meme-3", "Meme Template 3", "/meme3.jpg", "/meme3.jpg", "meme", 500.0, 500.0)
  ]

  const SparkyCharacters: seq<SparkyCharacter> := [
    SparkyCharacter("sparky-1", "Sparky", "/sparky.png", "/sparky.png", ["default"], ["neutral"])
  ]
}
