/** The record types shared by the quiz, the service and the result view
    (types.ts). They carry no behaviour of their own. */
module Types {
  import opened Wrappers

  /** The three traveller archetypes (`ArchetypeId`, types.ts:2). */
  datatype ArchetypeId = Healer | Adventurer | Scavenger

  /** The string literal that stands for an archetype in TypeScript. */
  function IdName(id: ArchetypeId): (s: string)
    ensures |s| > 0
  {
    match id
    case Healer => "HEALER"
    case Adventurer => "ADVENTURER"
    case Scavenger => "SCAVENGER"
  }

  datatype Colors = Colors(
    primary: string, secondary: string, accent: string,
    bg: string, text: string, gradient: string)

  datatype Archetype = Archetype(
    id: ArchetypeId, name: string, subtitle: string, description: string,
    colors: Colors, keywords: seq<string>)

  datatype QuizOption = QuizOption(text: string, archetype: ArchetypeId)

  datatype Question = Question(id: int, text: string, options: seq<QuizOption>)

  datatype Coordinates = Coordinates(lat: string, lng: string)

  /** A recommended place; the two image URLs stay absent until the images
      for the place have been generated. */
  datatype TravelSpot = TravelSpot(
    id: string, name: string, location: string, description: string,
    highlights: seq<string>, reminders: seq<string>, coordinates: Coordinates,
    imageUrl: Option<string>, nightImageUrl: Option<string>,
    prescription: Option<string>)
}
