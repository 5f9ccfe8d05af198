/** The static quiz data (constants.tsx): the archetype table and the five
    questions. */
module Constants {
  import opened Types

  const HealerArchetype := Archetype(
    Healer, "林間療癒者", "在靜謐中找回內心的頻率",
    "你渴望平靜與壓力的釋放。深山林道、迷霧森林與慢活的村落是你靈魂的避風港。",
    Colors("bg-[#4A5D4E]", "bg-[#9BA89B]", "border-[#4A5D4E]", "bg-[#F2F4F2]",
           "text-[#2D362E]", "from-[#4A5D4E] via-[#9BA89B] to-[#D6D1C4]"),
    ["平靜", "苔蘚綠", "霧氣灰", "木質感"])

  const AdventurerArchetype := Archetype(
    Adventurer, "破浪冒險家", "與大海與高山的極限對話",
    "你渴望自由，追求未知的挑戰。海岸秘境、險峻步道與那抹湛藍是你的動力源泉。",
    Colors("bg-[#1E3A5F]", "bg-[#F8F9FA]", "border-[#1E3A5F]", "bg-[#F0F4F8]",
           "text-[#0D1B2A]", "from-[#1E3A5F] via-[#F8F9FA] to-[#C5A059]"),
    ["自由", "湛藍", "浪花白", "砂岩金"])

  const ScavengerArchetype := Archetype(
    Scavenger, "時光拾荒者", "在歷史碎片中拾取感性力量",
    "你渴望懷舊與深度的情感連結。古鎮老街、文化遺址與琥珀色的夕陽最能觸動你的心弦。",
    Colors("bg-[#8E354A]", "bg-[#7D7D7D]", "border-[#8E354A]", "bg-[#FAF7F2]",
           "text-[#3E1F25]", "from-[#8E354A] via-[#7D7D7D] to-[#D68D3E]"),
    ["懷舊", "胭脂紅", "磚瓦灰", "琥珀色"])

  /** `ARCHETYPES`: one entry per archetype id. */
  const Archetypes: map<ArchetypeId, Archetype> :=
    map[Healer := HealerArchetype, Adventurer := AdventurerArchetype,
        Scavenger := ScavengerArchetype]

  /** A question whose three options lead to HEALER, ADVENTURER and
      SCAVENGER, in that order. */
  function Ask(id: int, text: string, healer: string, adventurer: string, scavenger: string): Question
  {
    Question(id, text, [QuizOption(healer, Healer), QuizOption(adventurer, Adventurer),
                        QuizOption(scavenger, Scavenger)])
  }

  /** `QUIZ_QUESTIONS`. */
  const QuizQuestions: seq<Question> := [
    Ask(1, "獨自一人時，你更希望身處哪種氛圍？",
        "被群山環繞，空氣中帶著濕潤的木頭香",
        "站在懸崖邊緣，聽著怒吼的浪花拍打岩石",
        "在夕陽餘暉下，踩在有些鬆動的古老紅磚上"),
    Ask(2, "如果能擁有一種超能力，你希望是？",
        "能聽懂植物的語言，與森林共鳴",
        "能瞬間移動到最高的高山或最深的海洋",
        "能看見物品過去承載的所有記憶碎片"),
    Ask(3, "你最嚮往的週末下午是？",
        "在山中小屋靜靜喝茶看書",
        "徒步探索一條未曾在地圖上標示的小徑",
        "在老舊相館裡翻閱泛黃的舊照片"),
    Ask(4, "選一種代表你心境的質感？",
        "柔軟微涼的苔蘚",
        "堅硬粗糙的岩石",
        "溫潤斑駁的木紋"),
    Ask(5, "旅行對你而言，最深刻的意義是？",
        "修補疲憊，找回內心的平靜",
        "突破極限，證明自己的自由",
        "穿越時空，與未曾參與的歷史對話")
  ]

  /** Every archetype has an entry, and the entry's `id` is its own key. */
  lemma ArchetypesKeyedById()
    ensures forall k: ArchetypeId :: k in Archetypes && Archetypes[k].id == k
  {
    forall k: ArchetypeId ensures k in Archetypes && Archetypes[k].id == k {
      match k
      case Healer => assert Archetypes[k] == HealerArchetype;
      case Adventurer => assert Archetypes[k] == AdventurerArchetype;
      case Scavenger => assert Archetypes[k] == ScavengerArchetype;
    }
  }

  /** There are exactly five questions. */
  lemma QuestionCountIsFive()
    ensures |QuizQuestions| == 5
  {
  }

  /** Question ids run 1..5 in order, and each question offers three
      options, one per archetype, in the order HEALER, ADVENTURER,
      SCAVENGER. */
  lemma QuestionsWellFormed()
    ensures forall i :: 0 <= i < |QuizQuestions| ==>
      QuizQuestions[i].id == i + 1 &&
      |QuizQuestions[i].options| == 3 &&
      QuizQuestions[i].options[0].archetype == Healer &&
      QuizQuestions[i].options[1].archetype == Adventurer &&
      QuizQuestions[i].options[2].archetype == Scavenger
  {
  }
}
