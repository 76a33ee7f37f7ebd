// The dialogue node each painting opens: one per gallery title, with a
// fallback for any other name.

module PaintingNodes {
  import opened MuseumConfig

  /// The titles with a dialogue node of their own.
  const MappedTitles: seq<string> := [
    "Abstract Composition #1", "Geometric Harmony", "Color Study #47", "Organic Forms",
    "Fractal Dreams", "Minimalist Study", "Digital Landscape", "Noise Patterns",
    "Cellular Automata", "Wave Function", "Perlin Clouds", "Marble Veins"
  ]

  const FallbackNode: string := "FractalDreams"

  /// `get_dialogue_node_for_painting`.
  function DialogueNode(title: string): (r: string)
    ensures title !in MappedTitles ==> r == FallbackNode
  {
    match title
    case "Abstract Composition #1" => "AbstractComposition1"
    case "Geometric Harmony" => "GeometricHarmony"
    case "Color Study #47" => "ColorStudy47"
    case "Organic Forms" => "OrganicForms"
    case "Fractal Dreams" => "FractalDreams"
    case "Minimalist Study" => "MinimalistStudy"
    case "Digital Landscape" => "DigitalLandscape"
    case "Noise Patterns" => "NoisePatterns"
    case "Cellular Automata" => "CellularAutomata"
    case "Wave Function" => "WaveFunction"
    case "Perlin Clouds" => "PerlinClouds"
    case "Marble Veins" => "MarbleVeins"
    case _ => FallbackNode
  }

  /// The node of each mapped title, in the order of the titles.
  const MappedNodes: seq<string> := [
    "AbstractComposition1", "GeometricHarmony", "ColorStudy47", "OrganicForms",
    "FractalDreams", "MinimalistStudy", "DigitalLandscape", "NoisePatterns",
    "CellularAutomata", "WaveFunction", "PerlinClouds", "MarbleVeins"
  ]

  lemma NodesInOrder()
    ensures |MappedTitles| == |MappedNodes| == 12
    ensures forall i :: 0 <= i < |MappedTitles| ==> DialogueNode(MappedTitles[i]) == MappedNodes[i]
  {
  }

  lemma NodeNamesDistinct()
    ensures forall i, j :: 0 <= i < j < |MappedNodes| ==> MappedNodes[i] != MappedNodes[j]
  {
  }

  /// The twelve mapped titles get twelve distinct nodes.
  lemma MappedNodesDistinct()
    ensures |MappedTitles| == 12
    ensures forall i, j :: 0 <= i < j < |MappedTitles| ==> DialogueNode(MappedTitles[i]) != DialogueNode(MappedTitles[j])
  {
    NodesInOrder();
    NodeNamesDistinct();
  }

  /// Every painting of the gallery has its own node; none falls back
  /// (the fallback node is the one of "Fractal Dreams").
  lemma GalleryTitlesMapped()
    ensures forall i :: 0 <= i < |MainGallery| ==> MainGallery[i].name == MappedTitles[i]
    ensures forall i, j :: 0 <= i < j < |MainGallery| ==>
              DialogueNode(MainGallery[i].name) != DialogueNode(MainGallery[j].name)
  {
    MappedNodesDistinct();
  }
}
