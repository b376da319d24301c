/**
 * The tarot catalog held by `CardRepository`: the `TarotCard` and `CardOfDay` records
 * and the fixed list of entries, in list order. The list is stored column by column
 * (one function per field, indexed by list position) so that a proof about one field
 * of one entry does not have to look at the others.
 *
 * The two long description texts of each entry are not transcribed (see README).
 */
module Catalog {
  import opened Wrappers

  datatype TarotCard = TarotCard(
    id: int,
    name: string,
    subcategory: string,
    uprightDescription: string,
    reversedDescription: string,
    uprightMeanings: seq<string>,
    reversedMeanings: seq<string>,
    imageName: string,
    element: string,
    answer: string)

  /** A card together with the orientation it was drawn in. */
  datatype CardOfDay = CardOfDay(card: TarotCard, isUpright: bool)

  /** Number of entries in the list as written. */
  const SourceCount := 79

  /** Entry `i` of the list as written (descriptions left empty). */
  function CardAt(i: nat): (c: TarotCard)
    requires i < SourceCount
    ensures c.uprightDescription == "" && c.reversedDescription == ""
  {
    TarotCard(IdAt(i), NameAt(i), SubcategoryAt(i), "", "", UprightMeaningsAt(i),
              ReversedMeaningsAt(i), ImageNameAt(i), ElementAt(i), AnswerAt(i))
  }

  /** The catalog as the repository declares it, in list order. */
  function SourceCards(): (cards: seq<TarotCard>)
    ensures |cards| == SourceCount
    ensures forall i :: 0 <= i < SourceCount ==> cards[i] == CardAt(i)
  {
    seq(SourceCount, i requires 0 <= i < SourceCount => CardAt(i))
  }

  /** The `id` of entry `i`, with the source line where the entry begins. */
  function IdAt(i: nat): int
    requires i < SourceCount
  {
    match i
    case 0 => 1  // line 41
    case 1 => 2  // line 46
    case 2 => 3  // line 54
    case 3 => 4  // line 66
    case 4 => 5  // line 78
    case 5 => 6  // line 90
    case 6 => 7  // line 102
    case 7 => 8  // line 114
    case 8 => 9  // line 126
    case 9 => 10  // line 138
    case 10 => 11  // line 150
    case 11 => 12  // line 162
    case 12 => 13  // line 174
    case 13 => 14  // line 186
    case 14 => 15  // line 198
    case 15 => 16  // line 210
    case 16 => 17  // line 222
    case 17 => 18  // line 234
    case 18 => 19  // line 246
    case 19 => 20  // line 258
    case 20 => 21  // line 270
    case 21 => 22  // line 282
    case 22 => 14  // line 294
    case 23 => 24  // line 306
    case 24 => 25  // line 318
    case 25 => 26  // line 330
    case 26 => 27  // line 342
    case 27 => 28  // line 354
    case 28 => 29  // line 366
    case 29 => 30  // line 378
    case 30 => 31  // line 390
    case 31 => 32  // line 402
    case 32 => 33  // line 414
    case 33 => 34  // line 426
    case 34 => 35  // line 438
    case 35 => 36  // line 450
    case 36 => 37  // line 462
    case 37 => 38  // line 474
    case 38 => 39  // line 486
    case 39 => 40  // line 498
    case 40 => 41  // line 510
    case 41 => 42  // line 522
    case 42 => 43  // line 534
    case 43 => 44  // line 546
    case 44 => 45  // line 558
    case 45 => 46  // line 570
    case 46 => 47  // line 582
    case 47 => 48  // line 594
    case 48 => 49  // line 606
    case 49 => 50  // line 618
    case 50 => 51  // line 630
    case 51 => 52  // line 642
    case 52 => 53  // line 654
    case 53 => 54  // line 666
    case 54 => 55  // line 678
    case 55 => 56  // line 690
    case 56 => 57  // line 702
    case 57 => 58  // line 714
    case 58 => 59  // line 726
    case 59 => 60  // line 738
    case 60 => 61  // line 750
    case 61 => 62  // line 762
    case 62 => 63  // line 774
    case 63 => 64  // line 786
    case 64 => 65  // line 798
    case 65 => 66  // line 810
    case 66 => 67  // line 822
    case 67 => 68  // line 834
    case 68 => 69  // line 846
    case 69 => 70  // line 858
    case 70 => 71  // line 870
    case 71 => 72  // line 882
    case 72 => 72  // line 894
    case 73 => 73  // line 906
    case 74 => 74  // line 918
    case 75 => 75  // line 930
    case 76 => 76  // line 942
    case 77 => 77  // line 954
    case _ => 78  // line 966
  }

  /** The `name` of entry `i`. */
  function NameAt(i: nat): string
    requires i < SourceCount
  {
    match i
    case 0 => "Queen of Pentacles"
    case 1 => "Page of Pentacles"
    case 2 => "Knight of Pentacles"
    case 3 => "King of Pentacles"
    case 4 => "Ace of Pentacles"
    case 5 => "Ten of Pentacles"
    case 6 => "Nine of Pentacles"
    case 7 => "Eight of Pentacles"
    case 8 => "Seven of Pentacles"
    case 9 => "Six of Pentacles"
    case 10 => "Five of Pentacles"
    case 11 => "Four of Pentacles"
    case 12 => "Three of Pentacles"
    case 13 => "Two of Pentacles"
    case 14 => "Two of Wands"
    case 15 => "Three of Wands"
    case 16 => "Four of Wands"
    case 17 => "Five of Wands"
    case 18 => "Six of Wands"
    case 19 => "Seven of Wands"
    case 20 => "Eight of Wands"
    case 21 => "Nine of Wands"
    case 22 => "Ten of Wands"
    case 23 => "Knight of Wands"
    case 24 => "Queen of Wands"
    case 25 => "Page of Wands"
    case 26 => "King of Wands"
    case 27 => "Ace of Wands"
    case 28 => "Ace of Swords"
    case 29 => "Two of Swords"
    case 30 => "Three of Swords"
    case 31 => "Four of Swords"
    case 32 => "Five of Swords"
    case 33 => "Six of Swords"
    case 34 => "Seven of Swords"
    case 35 => "Eight of Swords"
    case 36 => "Nine of Swords"
    case 37 => "Ten of Swords"
    case 38 => "Page of Swords"
    case 39 => "Knight of Swords"
    case 40 => "Queen of Swords"
    case 41 => "King of Swords"
    case 42 => "Ace of Cups"
    case 43 => "Two of Cups"
    case 44 => "Three of Cups"
    case 45 => "Four of Cups"
    case 46 => "Five of Cups"
    case 47 => "Six of Cups"
    case 48 => "Seven of Cups"
    case 49 => "Eight of Cups"
    case 50 => "Nine of Cups"
    case 51 => "Ten of Cups"
    case 52 => "Page of Cups"
    case 53 => "Knight of Cups"
    case 54 => "Queen of Cups"
    case 55 => "King of Cups"
    case 56 => "The Fool"
    case 57 => "The Magician"
    case 58 => "The High Priestess"
    case 59 => "The Empress"
    case 60 => "The Emperor"
    case 61 => "The Hierophant"
    case 62 => "The Lovers"
    case 63 => "The Chariot"
    case 64 => "Strength"
    case 65 => "The Hermit"
    case 66 => "The Wheel of Fortune"
    case 67 => "Justice"
    case 68 => "The Hanged Man"
    case 69 => "Death"
    case 70 => "Temperance"
    case 71 => "The Devil"
    case 72 => "The Devil"
    case 73 => "The Tower"
    case 74 => "The Star"
    case 75 => "The Moon"
    case 76 => "The Sun"
    case 77 => "Judgment"
    case _ => "The World"
  }

  /** The `subcategory` of entry `i`. */
  function SubcategoryAt(i: nat): string
    requires i < SourceCount
  {
    match i
    case 0 => "Minor arcana"
    case 1 => "Minor arcana"
    case 2 => "Minor arcana"
    case 3 => "Minor arcana"
    case 4 => "Minor arcana"
    case 5 => "Minor arcana"
    case 6 => "Minor arcana"
    case 7 => "Minor arcana"
    case 8 => "Minor arcana"
    case 9 => "Minor arcana"
    case 10 => "Minor arcana"
    case 11 => "Minor arcana"
    case 12 => "Minor arcana"
    case 13 => "Minor arcana"
    case 14 => "Minor arcana"
    case 15 => "Minor arcana"
    case 16 => "Minor arcana"
    case 17 => "Minor arcana"
    case 18 => "Minor arcana"
    case 19 => "Minor arcana"
    case 20 => "Minor arcana"
    case 21 => "Minor arcana"
    case 22 => "Minor arcana"
    case 23 => "Minor arcana"
    case 24 => "Minor arcana"
    case 25 => "Minor arcana"
    case 26 => "Minor arcana"
    case 27 => "Minor arcana"
    case 28 => "Minor arcana"
    case 29 => "Minor arcana"
    case 30 => "Minor arcana"
    case 31 => "Minor arcana"
    case 32 => "Minor arcana"
    case 33 => "Minor arcana"
    case 34 => "Minor arcana"
    case 35 => "Minor arcana"
    case 36 => "Minor arcana"
    case 37 => "Minor arcana"
    case 38 => "Minor arcana"
    case 39 => "Minor arcana"
    case 40 => "Minor arcana"
    case 41 => "Minor arcana"
    case 42 => "Minor arcana"
    case 43 => "Minor arcana"
    case 44 => "Minor arcana"
    case 45 => "Minor arcana"
    case 46 => "Minor arcana"
    case 47 => "Minor arcana"
    case 48 => "Minor arcana"
    case 49 => "Minor arcana"
    case 50 => "Minor arcana"
    case 51 => "Minor arcana"
    case 52 => "Minor arcana"
    case 53 => "Minor arcana"
    case 54 => "Minor arcana"
    case 55 => "Minor arcana"
    case 56 => "Major arcana"
    case 57 => "Major arcana"
    case 58 => "Major arcana"
    case 59 => "Major arcana"
    case 60 => "Major arcana"
    case 61 => "Major arcana"
    case 62 => "Major arcana"
    case 63 => "Major arcana"
    case 64 => "Major arcana"
    case 65 => "Major arcana"
    case 66 => "Major arcana"
    case 67 => "Major arcana"
    case 68 => "Major arcana"
    case 69 => "Major arcana"
    case 70 => "Major arcana"
    case 71 => "Major arcana"
    case 72 => "Major arcana"
    case 73 => "Major arcana"
    case 74 => "Major arcana"
    case 75 => "Major arcana"
    case 76 => "Major arcana"
    case 77 => "Major arcana"
    case _ => "Major arcana"
  }

  /** The `uprightMeanings` of entry `i`. */
  function UprightMeaningsAt(i: nat): seq<string>
    requires i < SourceCount
  {
    match i
    case 0 => ["Nurturing", "Practicality", "Financial Security", "Domestic Bliss", "Balance", "Generosity", "Connection to Nature"]
    case 1 => ["Ambition", "Focus", "Manifestation", "Practicality", "Skill-building", "Opportunity"]
    case 2 => ["Perseverance", "Hard work", "Diligence", "Routine", "Reliability", "Patience", "Steady progress"]
    case 3 => ["Abundance", "Security", "Stability", "Discipline", "Generosity", "Financial mastery", "Success"]
    case 4 => ["New beginnings", "Prosperity", "Opportunity", "Stability", "Success", "Practicality", "Effort"]
    case 5 => ["Wealth", "Security", "Legacy", "Family", "Tradition", "Prosperity", "Long-term success"]
    case 6 => ["Independence", "Luxury", "Self-sufficiency", "Abundance", "Comfort", "Accomplishment", "Gratitude"]
    case 7 => ["Skill development", "Hard work", "Discipline", "Focus", "Dedication", "Craftsmanship", "Commitment"]
    case 8 => ["Patience", "Assessment", "Planning", "Reflection", "Investment", "Evaluation", "Long-term goals"]
    case 9 => ["Generosity", "Charity", "Balance", "Giving", "Receiving", "Support", "Mutual benefit"]
    case 10 => ["Hardship", "Loss", "Struggle", "Isolation", "Financial insecurity", "Adversity", "Perseverance"]
    case 11 => ["Control", "Security", "Possessiveness", "Stability", "Saving", "Protection", "Caution"]
    case 12 => ["Teamwork", "Collaboration", "Skill-building", "Cooperation", "Learning", "Shared goals"]
    case 13 => ["Balance", "Adaptability", "Resourcefulness", "Flexibility", "Juggling", "Time management", "Change"]
    case 14 => ["Planning", "Decision-making", "Potential", "Growth", "Bold choices", "Expansion"]
    case 15 => ["Expansion", "Exploration", "Progress", "Vision", "Opportunity", "Growth"]
    case 16 => ["Celebration", "Harmony", "Community", "Achievement", "Reunion", "Joy"]
    case 17 => ["Conflict", "Competition", "Challenges", "Disagreements", "Tension", "Growth through struggle"]
    case 18 => ["Victory", "Recognition", "Success", "Accomplishment", "Public acknowledgment", "Triumph"]
    case 19 => ["Courage", "Defense", "Standing your ground", "Confidence", "Opposition", "Resilience"]
    case 20 => ["Speed", "Progress", "Movement", "Momentum", "Communication", "Action"]
    case 21 => ["Resilience", "Persistence", "Defending", "Strength", "Courage", "Near completion"]
    case 22 => ["Burdens", "Responsibilities", "Overwhelm", "Heavy load", "Obligations", "Assessment"]
    case 23 => ["Energy", "Passion", "Adventure", "Courage", "Confidence"]
    case 24 => ["Confidence", "Determination", "Creativity", "Charisma", "Inspiration"]
    case 25 => ["Enthusiasm", "Exploration", "New ideas", "Creativity", "Adventure"]
    case 26 => ["Leadership", "Vision", "Charisma", "Influence", "Determination"]
    case 27 => ["New beginnings", "Inspiration", "Creative potential", "Passion", "Action"]
    case 28 => ["Clarity", "Truth", "New ideas", "Intellect", "Decision-making"]
    case 29 => ["Stalemate", "Indecision", "Avoidance", "Difficult choices"]
    case 30 => ["Heartbreak", "Grief", "Emotional pain", "Healing"]
    case 31 => ["Rest", "Contemplation", "Recovery", "Self-reflection"]
    case 32 => ["Conflict", "Betrayal", "Tension", "Emotional strain"]
    case 33 => ["Transition", "Movement", "Travel", "Change"]
    case 34 => ["Deception", "Strategy", "Cunning", "Discretion"]
    case 35 => ["Restriction", "Limitation", "Feeling trapped", "Powerlessness"]
    case 36 => ["Anxiety", "Fear", "Nightmares", "Mental distress"]
    case 37 => ["Betrayal", "Loss", "Endings", "Defeat"]
    case 38 => ["Curiosity", "Intelligence", "Communication", "Exploration"]
    case 39 => ["Action", "Determination", "Ambition", "Decisiveness"]
    case 40 => ["Intellect", "Independence", "Clear communication", "Wisdom"]
    case 41 => ["Authority", "Intellect", "Decision-making", "Fairness"]
    case 42 => ["New beginnings", "Love", "Emotional fulfillment", "Joy"]
    case 43 => ["Partnership", "Connection", "Mutual respect", "Harmony"]
    case 44 => ["Celebration", "Friendship", "Community", "Joy"]
    case 45 => ["Contemplation", "Apathy", "Reevaluation", "Introspection"]
    case 46 => ["Grief", "Loss", "Disappointment", "Emotional turmoil"]
    case 47 => ["Nostalgia", "Childhood memories", "Innocence", "Joyful reflection"]
    case 48 => ["Choices", "Dreams", "Illusions", "Exploration"]
    case 49 => ["Withdrawal", "Introspection", "Search for meaning", "Emotional fulfillment"]
    case 50 => ["Emotional satisfaction", "Contentment", "Wishes fulfilled", "Joy"]
    case 51 => ["Happiness", "Family", "Emotional fulfillment", "Joyful connections"]
    case 52 => ["Creativity", "Intuition", "Emotional exploration", "Authenticity"]
    case 53 => ["Romance", "Idealism", "Emotional pursuit", "Passion"]
    case 54 => ["Compassion", "Intuition", "Emotional security", "Nurturing"]
    case 55 => ["Emotional maturity", "Compassion", "Balance", "Wisdom"]
    case 56 => ["New beginnings", "Adventure", "Spontaneity"]
    case 57 => ["Manifestation", "Resourcefulness", "Power"]
    case 58 => ["Intuition", "Mystery", "Inner wisdom"]
    case 59 => ["Abundance", "Nurturing", "Fertility"]
    case 60 => ["Authority", "Structure", "Stability"]
    case 61 => ["Tradition", "Spiritual guidance", "Conformity"]
    case 62 => ["Love", "Harmony", "Choices"]
    case 63 => ["Determination", "Control", "Victory"]
    case 64 => ["Courage", "Patience", "Inner strength"]
    case 65 => ["Introspection", "Solitude", "Inner guidance"]
    case 66 => ["Cycles", "Destiny", "Change"]
    case 67 => ["Fairness", "Truth", "Balance"]
    case 68 => ["Surrender", "New perspectives", "Letting go"]
    case 69 => ["Transformation", "Endings", "New beginnings"]
    case 70 => ["Balance", "Moderation", "Harmony"]
    case 71 => ["Temptation", "Materialism", "Bondage"]
    case 72 => ["Temptation", "Materialism", "Bondage"]
    case 73 => ["Chaos", "Upheaval", "Revelation"]
    case 74 => ["Hope", "Inspiration", "Renewal"]
    case 75 => ["Intuition", "Dreams", "Subconscious"]
    case 76 => ["Joy", "Success", "Positivity"]
    case 77 => ["Reflection", "Reckoning", "Inner calling"]
    case _ => ["Completion", "Fulfillment", "Achievement"]
  }

  /** The `reversedMeanings` of entry `i`. */
  function ReversedMeaningsAt(i: nat): seq<string>
    requires i < SourceCount
  {
    match i
    case 0 => ["Lack of self-care", "Financial insecurity", "Materialism", "Resistance to change", "Feeling overwhelmed"]
    case 1 => ["Procrastination", "Missed opportunities", "Lack of progress", "Unwillingness to learn", "Distraction"]
    case 2 => ["Stagnation", "Overworking", "Burnout", "Laziness", "Lack of motivation", "Risk aversion"]
    case 3 => ["Greed", "Materialism", "Fear of loss", "Control issues", "Neglect of emotions", "Overemphasis on wealth"]
    case 4 => ["Missed opportunities", "Delays", "Financial instability", "Poor planning", "Lack of resources"]
    case 5 => ["Financial instability", "Family conflicts", "Instability", "Inheritance issues", "Disconnection"]
    case 6 => ["Overindulgence", "Dependency", "Isolation", "Financial struggle", "Imbalance"]
    case 7 => ["Lack of focus", "Poor work ethic", "Burnout", "Dissatisfaction", "Procrastination"]
    case 8 => ["Impatience", "Frustration", "Lack of progress", "Poor planning", "Wasted effort"]
    case 9 => ["Imbalance", "Exploitation", "Dependency", "Inequality", "Resentment"]
    case 10 => ["Recovery", "Hope", "Improvement", "Stability", "Support", "Rebuilding"]
    case 11 => ["Greed", "Control issues", "Fear of loss", "Inflexibility", "Materialism"]
    case 12 => ["Disorganization", "Conflicts", "Lack of teamwork", "Lack of recognition", "Frustration"]
    case 13 => ["Overwhelm", "Disorganization", "Imbalance", "Stress", "Poor time management"]
    case 14 => ["Indecision", "Lack of planning", "Fear", "Hesitation", "Uncertainty"]
    case 15 => ["Delays", "Setbacks", "Frustration", "Lack of foresight", "Obstacles"]
    case 16 => ["Disharmony", "Conflict", "Delays", "Obstacles", "Lack of support"]
    case 17 => ["Resolution", "Avoidance", "Compromise", "Cooperation", "Peaceful solutions"]
    case 18 => ["Disappointment", "Lack of recognition", "Setbacks", "Failure", "Ego issues"]
    case 19 => ["Overwhelm", "Defenselessness", "Insecurity", "Feeling outnumbered", "Giving up"]
    case 20 => ["Delays", "Miscommunication", "Frustration", "Obstacles", "Slow progress"]
    case 21 => ["Burnout", "Exhaustion", "Overwhelm", "Defensiveness", "Struggle to continue"]
    case 22 => ["Release of burdens", "Relief", "Letting go", "Simplification", "Prioritization"]
    case 23 => ["Impulsiveness", "Recklessness", "Lack of direction"]
    case 24 => ["Insecurity", "Jealousy", "Lack of confidence"]
    case 25 => ["Lack of direction", "Hesitation", "Feeling uninspired"]
    case 26 => ["Overbearing behavior", "Impatience", "Lack of vision"]
    case 27 => ["Lack of inspiration", "Missed opportunities", "Creative blocks"]
    case 28 => ["Confusion", "Lack of clarity", "Miscommunication"]
    case 29 => ["Confusion", "Avoidance", "Overwhelmed by choices"]
    case 30 => ["Avoiding pain", "Holding onto grief"]
    case 31 => ["Restlessness", "Burnout", "Inability to rest"]
    case 32 => ["Resolution", "Forgiveness", "Desire for peace"]
    case 33 => ["Feeling stuck", "Resistance to change", "Difficulty moving on"]
    case 34 => ["Dishonesty", "Avoiding accountability", "Lack of authenticity"]
    case 35 => ["Liberation", "Empowerment", "Breaking free"]
    case 36 => ["Release of anxiety", "Recovery from fear", "Peace of mind"]
    case 37 => ["Recovery", "Resilience", "New beginnings"]
    case 38 => ["Deceit", "Gossip", "Lack of clarity"]
    case 39 => ["Recklessness", "Impatience", "Lack of direction"]
    case 40 => ["Emotional coldness", "Bitterness", "Lack of clarity"]
    case 41 => ["Tyranny", "Manipulation", "Misuse of power"]
    case 42 => ["Emotional blockages", "Repressed feelings", "Lack of self-love"]
    case 43 => ["Imbalance", "Disconnection", "Unresolved issues"]
    case 44 => ["Isolation", "Overindulgence", "Lack of support"]
    case 45 => ["Openness", "Acceptance", "Renewed interest"]
    case 46 => ["Acceptance", "Forgiveness", "Moving on"]
    case 47 => ["Reluctance to let go", "Inability to move forward", "Stuck in the past"]
    case 48 => ["Clarity", "Focus", "Decision-making"]
    case 49 => ["Stagnation", "Fear of change", "Inability to let go"]
    case 50 => ["Dissatisfaction", "Overindulgence", "Unmet desires"]
    case 51 => ["Disharmony", "Broken relationships", "Lack of fulfillment"]
    case 52 => ["Emotional immaturity", "Unrealistic expectations", "Lack of creativity"]
    case 53 => ["Moodiness", "Unrequited love", "Unrealistic ideals"]
    case 54 => ["Emotional instability", "Insecurity", "Dependency"]
    case 55 => ["Emotional manipulation", "Moodiness", "Lack of control"]
    case 56 => ["Recklessness", "Naivety", "Poor choices"]
    case 57 => ["Manipulation", "Lack of focus", "Poor planning"]
    case 58 => ["Secrets", "Lack of clarity", "Disconnection"]
    case 59 => ["Neglect", "Dependence", "Creative block"]
    case 60 => ["Tyranny", "Rigidity", "Inflexibility"]
    case 61 => ["Rebellion", "Unconventionality", "Questioning beliefs"]
    case 62 => ["Imbalance", "Miscommunication", "Indecision"]
    case 63 => ["Lack of direction", "Overwhelm", "Failure to act"]
    case 64 => ["Weakness", "Self-doubt", "Vulnerability"]
    case 65 => ["Isolation", "Withdrawal", "Disconnection"]
    case 66 => ["Resistance", "Bad luck", "Feeling stuck"]
    case 67 => ["Dishonesty", "Imbalance", "Avoiding accountability"]
    case 68 => ["Resistance", "Delays", "Feeling stuck"]
    case 69 => ["Resistance to change", "Stagnation", "Fear of loss"]
    case 70 => ["Imbalance", "Excess", "Overwhelm"]
    case 71 => ["Liberation", "Overcoming addiction", "Breaking free"]
    case 72 => ["Liberation", "Overcoming addiction", "Breaking free"]
    case 73 => ["Avoidance", "Fear of disaster", "Resistance"]
    case 74 => ["Despair", "Lack of faith", "Disconnection"]
    case 75 => ["Confusion", "Deception", "Illusions"]
    case 76 => ["Setbacks", "Negativity", "Lack of inspiration"]
    case 77 => ["Self-doubt", "Refusal to change", "Avoidance"]
    case _ => ["Incompletion", "Stagnation", "Lack of closure"]
  }

  /** The `imageName` of entry `i`. */
  function ImageNameAt(i: nat): string
    requires i < SourceCount
  {
    match i
    case 0 => "card_queen_of_pentacles"
    case 1 => "card_page_of_pentacles"
    case 2 => "card_knights_of_pentacles"
    case 3 => "card_king_of_pentacles"
    case 4 => "card_aces_of_pentacles"
    case 5 => "card_10_of_pentacles"
    case 6 => "card_9_of_pentacles"
    case 7 => "card_8_of_pentacles"
    case 8 => "card_7_of_pentacles"
    case 9 => "card_6_of_pentacles"
    case 10 => "card_5_of_pentacles"
    case 11 => "card_4_of_pentacles"
    case 12 => "card_3_of_pentacles"
    case 13 => "card_2_of_pentacles"
    case 14 => "card_2_of_wands"
    case 15 => "card_3_of_wands"
    case 16 => "card_4_of_wands"
    case 17 => "card_5_of_wands"
    case 18 => "card_6_of_wands"
    case 19 => "card_7_of_wands"
    case 20 => "card_8_of_wands"
    case 21 => "card_9_of_wands"
    case 22 => "card_10_of_wands"
    case 23 => "card_knight_of_wands"
    case 24 => "card_queen_of_wands"
    case 25 => "card_page_of_wands"
    case 26 => "card_king_of_wands"
    case 27 => "card_ace_of_wands"
    case 28 => "card_ace_of_swords"
    case 29 => "card_2_of_swords"
    case 30 => "card_3_of_swords"
    case 31 => "card_4_of_swords"
    case 32 => "card_5_of_swords"
    case 33 => "card_6_of_swords"
    case 34 => "card_7_of_swords"
    case 35 => "card_8_of_swords"
    case 36 => "card_9_of_swords"
    case 37 => "card_10_of_swords"
    case 38 => "card_page_of_swords"
    case 39 => "card_knight_of_swords"
    case 40 => "card_queen_of_swords"
    case 41 => "card_king_of_swords"
    case 42 => "card_ace_of_cups"
    case 43 => "card_2_of_cups"
    case 44 => "card_3_of_cups"
    case 45 => "card_4_of_cups"
    case 46 => "card_5_of_cups"
    case 47 => "card_6_of_cups"
    case 48 => "card_7_of_cups"
    case 49 => "card_8_of_cups"
    case 50 => "card_9_of_cups"
    case 51 => "card_10_of_cups"
    case 52 => "card_page_of_cups"
    case 53 => "card_knight_of_cups"
    case 54 => "card_queen_of_cups"
    case 55 => "card_king_of_cups"
    case 56 => "card_fool"
    case 57 => "card_magician"
    case 58 => "card_the_high_priestess"
    case 59 => "card_the_empress"
    case 60 => "card_the_emperor"
    case 61 => "card_the_hierophant"
    case 62 => "card_the_lovers"
    case 63 => "card_the_chariot"
    case 64 => "card_strength"
    case 65 => "card_the_hermit"
    case 66 => "card_the_wheel_of_fortune"
    case 67 => "card_justice"
    case 68 => "card_the_hanged_man"
    case 69 => "card_death"
    case 70 => "card_temperance"
    case 71 => "card_72_the_devil"
    case 72 => "card_the_devil"
    case 73 => "card_the_tower"
    case 74 => "card_the_star"
    case 75 => "card_the_moon"
    case 76 => "card_the_sun"
    case 77 => "card_judgment"
    case _ => "card_the_world"
  }

  /** The `element` of entry `i`. */
  function ElementAt(i: nat): string
    requires i < SourceCount
  {
    match i
    case 0 => "Earth"
    case 1 => "Earth"
    case 2 => "Earth"
    case 3 => "Earth"
    case 4 => "Earth"
    case 5 => "Earth"
    case 6 => "Earth"
    case 7 => "Earth"
    case 8 => "Earth"
    case 9 => "Earth"
    case 10 => "Earth"
    case 11 => "Earth"
    case 12 => "Earth"
    case 13 => "Earth"
    case 14 => "Fire"
    case 15 => "Fire"
    case 16 => "Fire"
    case 17 => "Fire"
    case 18 => "Fire"
    case 19 => "Fire"
    case 20 => "Fire"
    case 21 => "Fire"
    case 22 => "Fire"
    case 23 => "Fire"
    case 24 => "Fire"
    case 25 => "Fire"
    case 26 => "Fire"
    case 27 => "Fire"
    case 28 => "Air"
    case 29 => "Air"
    case 30 => "Air"
    case 31 => "Air"
    case 32 => "Air"
    case 33 => "Air"
    case 34 => "Air"
    case 35 => "Air"
    case 36 => "Air"
    case 37 => "Air"
    case 38 => "Air"
    case 39 => "Air"
    case 40 => "Air"
    case 41 => "Air"
    case 42 => "Water"
    case 43 => "Water"
    case 44 => "Water"
    case 45 => "Water"
    case 46 => "Water"
    case 47 => "Water"
    case 48 => "Water"
    case 49 => "Water"
    case 50 => "Water"
    case 51 => "Water"
    case 52 => "Water"
    case 53 => "Water"
    case 54 => "Water"
    case 55 => "Water"
    case 56 => "Air"
    case 57 => "Air"
    case 58 => "Water"
    case 59 => "Earth"
    case 60 => "Fire"
    case 61 => "Earth"
    case 62 => "Air"
    case 63 => "Water"
    case 64 => "Fire"
    case 65 => "Earth"
    case 66 => "Fire"
    case 67 => "Air"
    case 68 => "Water"
    case 69 => "Water"
    case 70 => "Fire"
    case 71 => "N/A"
    case 72 => "Earth"
    case 73 => "Fire"
    case 74 => "Air"
    case 75 => "Air"
    case 76 => "Air"
    case 77 => "Fire"
    case _ => "Fire"
  }

  /** The `answer` of entry `i`. */
  function AnswerAt(i: nat): string
    requires i < SourceCount
  {
    match i
    case 0 => "yes"
    case 1 => "no"
    case 2 => "yes"
    case 3 => "yes"
    case 4 => "yes"
    case 5 => "yes"
    case 6 => "yes"
    case 7 => "yes"
    case 8 => "yes"
    case 9 => "yes"
    case 10 => "no"
    case 11 => "no"
    case 12 => "yes"
    case 13 => "yes"
    case 14 => "yes"
    case 15 => "yes"
    case 16 => "yes"
    case 17 => "no"
    case 18 => "yes"
    case 19 => "no"
    case 20 => "yes"
    case 21 => "yes"
    case 22 => "no"
    case 23 => "yes"
    case 24 => "yes"
    case 25 => "yes"
    case 26 => "yes"
    case 27 => "yes"
    case 28 => "no"
    case 29 => "no"
    case 30 => "no"
    case 31 => "no"
    case 32 => "no"
    case 33 => "no"
    case 34 => "no"
    case 35 => "no"
    case 36 => "no"
    case 37 => "no"
    case 38 => "no"
    case 39 => "no"
    case 40 => "no"
    case 41 => "no"
    case 42 => "yes"
    case 43 => "yes"
    case 44 => "yes"
    case 45 => "maybe"
    case 46 => "yes"
    case 47 => "yes"
    case 48 => "yes"
    case 49 => "yes"
    case 50 => "yes"
    case 51 => "yes"
    case 52 => "yes"
    case 53 => "yes"
    case 54 => "yes"
    case 55 => "yes"
    case 56 => "yes"
    case 57 => "maybe"
    case 58 => "maybe"
    case 59 => "yes"
    case 60 => "yes"
    case 61 => "yes"
    case 62 => "yes"
    case 63 => "yes"
    case 64 => "yes"
    case 65 => "yes"
    case 66 => "yes"
    case 67 => "maybe"
    case 68 => "no"
    case 69 => "no"
    case 70 => "yes"
    case 71 => "yes"
    case 72 => "no"
    case 73 => "no"
    case 74 => "yes"
    case 75 => "yes"
    case 76 => "yes"
    case 77 => "no"
    case _ => "yes"
  }

  /** Kotlin `first { p(it) }` / `indexOf` as an index: the position of the first element satisfying `p`, if any. */
  function FirstIndexWhere<T>(s: seq<T>, p: T -> bool): (r: Option<nat>)
    ensures r.Some? ==> r.value < |s| && p(s[r.value])
    ensures r.Some? ==> forall j :: 0 <= j < r.value ==> !p(s[j])
    ensures r.None? <==> forall j :: 0 <= j < |s| ==> !p(s[j])
  {
    if s == [] then None
    else if p(s[0]) then Some(0)
    else match FirstIndexWhere(s[1..], p)
      case None => None
      case Some(k) => Some(k + 1)
  }

  /** The test `it.id == id`. */
  function HasId(id: int): TarotCard -> bool
  {
    (c: TarotCard) => c.id == id
  }

  /** Every id names at most one entry. */
  predicate UniqueIds(cards: seq<TarotCard>)
  {
    forall i, j :: 0 <= i < |cards| && 0 <= j < |cards| && cards[i].id == cards[j].id ==> i == j
  }

  /** In a catalog with unique ids, the first entry with an entry's id is that entry. */
  lemma FirstWithOwnId(cards: seq<TarotCard>, i: nat)
    requires UniqueIds(cards) && i < |cards|
    ensures FirstIndexWhere(cards, HasId(cards[i].id)) == Some(i)
  {
    var r := FirstIndexWhere(cards, HasId(cards[i].id));
    assert HasId(cards[i].id)(cards[i]);
  }

  /** The catalog as written repeats id 14 (lines 187 and 295) and id 72 (lines 883 and 895), on entries that differ. */
  lemma SourceHasDuplicateIds()
    ensures SourceCards()[13].id == 14 && SourceCards()[22].id == 14
    ensures SourceCards()[13].name == "Two of Pentacles" && SourceCards()[22].name == "Ten of Wands"
    ensures SourceCards()[71].id == 72 && SourceCards()[72].id == 72
    ensures SourceCards()[71].element == "N/A" && SourceCards()[72].element == "Earth"
    ensures SourceCards()[13] != SourceCards()[22] && SourceCards()[71] != SourceCards()[72]
    ensures !UniqueIds(SourceCards())
  {
    var cards := SourceCards();
    DuplicateColumns();
    assert cards[13] == CardAt(13) && cards[22] == CardAt(22);
    assert cards[71] == CardAt(71) && cards[72] == CardAt(72);
    assert cards[13].name[1] != cards[22].name[1];
    assert cards[71].element[0] != cards[72].element[0];
  }

  lemma DuplicateColumns()
    ensures IdAt(13) == 14 && IdAt(22) == 14 && IdAt(71) == 72 && IdAt(72) == 72
    ensures NameAt(13) == "Two of Pentacles" && NameAt(22) == "Ten of Wands"
    ensures ElementAt(71) == "N/A" && ElementAt(72) == "Earth"
  {
    DuplicateNames();
    DuplicateElements();
  }

  lemma DuplicateNames()
    ensures NameAt(13) == "Two of Pentacles" && NameAt(22) == "Ten of Wands"
  {
  }

  lemma DuplicateElements()
    ensures ElementAt(71) == "N/A" && ElementAt(72) == "Earth"
  {
  }

  /** The contract of `FirstIndexWhere` determines it: a satisfying position preceded by none is the answer. */
  lemma FirstIndexIs<T>(s: seq<T>, p: T -> bool, k: nat)
    requires k < |s| && p(s[k])
    requires forall j :: 0 <= j < k ==> !p(s[j])
    ensures FirstIndexWhere(s, p) == Some(k)
  {
  }

  /** Entry `i` of the list as written has id `i + 1`, except the repeated 14 at position 22 and the shift by one after the repeated 72. */
  lemma SourceIdAt(i: nat)
    requires i < SourceCount
    ensures SourceCards()[i].id == if i == 22 then 14 else if i <= 71 then i + 1 else i
  {
    assert SourceCards()[i].id == IdAt(i);
    IdAtFormula(i);
  }

  lemma IdAtFormula(i: nat)
    requires i < SourceCount
    ensures IdAt(i) == if i == 22 then 14 else if i <= 71 then i + 1 else i
  {
  }

  /** The ids of the list as written, in list order. */
  function SourceIds(): (ids: seq<int>)
    ensures |ids| == SourceCount
    ensures forall i :: 0 <= i < SourceCount ==> ids[i] == IdAt(i)
  {
    seq(SourceCount, i requires 0 <= i < SourceCount => IdAt(i))
  }

  function IsValue(v: int): int -> bool
  {
    (x: int) => x == v
  }

  /** First-match search by id only looks at the ids. */
  lemma FirstIdMatch(cards: seq<TarotCard>, ids: seq<int>, id: int)
    requires |ids| == |cards| && forall i :: 0 <= i < |cards| ==> cards[i].id == ids[i]
    ensures FirstIndexWhere(cards, HasId(id)) == FirstIndexWhere(ids, IsValue(id))
  {
    var r := FirstIndexWhere(ids, IsValue(id));
    if r.Some? {
      FirstIndexIs(cards, HasId(id), r.value);
    } else {
      assert forall j :: 0 <= j < |cards| ==> !HasId(id)(cards[j]);
    }
  }

  lemma SourceCardsIds(id: int)
    ensures FirstIndexWhere(SourceCards(), HasId(id)) == FirstIndexWhere(SourceIds(), IsValue(id))
  {
    var cards := SourceCards();
    forall i | 0 <= i < SourceCount ensures cards[i].id == SourceIds()[i] {
      assert cards[i] == CardAt(i);
    }
    FirstIdMatch(cards, SourceIds(), id);
  }

  /** The first entry carrying a duplicated id is the earlier one. */
  lemma SourceFirstMatches()
    ensures FirstIndexWhere(SourceCards(), HasId(14)) == Some(13)
    ensures FirstIndexWhere(SourceCards(), HasId(72)) == Some(71)
  {
    SourceFirstMatch(14, 13);
    SourceFirstMatch(72, 71);
  }

  lemma SourceFirstMatch(id: int, k: nat)
    requires (id, k) == (14, 13) || (id, k) == (72, 71)
    ensures FirstIndexWhere(SourceCards(), HasId(id)) == Some(k)
  {
    SourceCardsIds(id);
    FirstIdIs(id, k);
  }

  lemma FirstIdIs(id: int, k: nat)
    requires (id, k) == (14, 13) || (id, k) == (72, 71)
    ensures FirstIndexWhere(SourceIds(), IsValue(id)) == Some(k)
  {
    var ids := SourceIds();
    forall j | 0 <= j <= k ensures ids[j] == if j == 22 then 14 else j + 1 {
      IdAtFormula(j);
    }
    FirstIndexIs(ids, IsValue(id), k);
  }

  /** The catalog as written has no entry with id 23, nor with id 0. */
  lemma SourceMissesIds()
    ensures FirstIndexWhere(SourceCards(), HasId(23)) == None
    ensures FirstIndexWhere(SourceCards(), HasId(0)) == None
  {
    SourceMisses(23);
    SourceMisses(0);
  }

  lemma SourceMisses(id: int)
    requires id == 23 || id == 0
    ensures FirstIndexWhere(SourceCards(), HasId(id)) == None
  {
    SourceCardsIds(id);
    var ids := SourceIds();
    forall j | 0 <= j < SourceCount ensures !IsValue(id)(ids[j]) {
      IdAtFormula(j);
    }
  }

  /**
   * The catalog as evidently intended: the Ten of Wands (line 295) carries id 23, and the
   * stray first copy of The Devil (line 883, image "card_72_the_devil", element "N/A") is
   * dropped, leaving the 78 cards of a tarot deck with ids 1 to 78 in list order.
   */
  function Cards(): (cards: seq<TarotCard>)
    ensures |cards| == 78
  {
    seq(78, i requires 0 <= i < 78 =>
      if i < 22 then CardAt(i)
      else if i == 22 then CardAt(22).(id := 23)
      else if i < 71 then CardAt(i)
      else CardAt(i + 1))
  }

  lemma CardsIdsArePositions()
    ensures forall i :: 0 <= i < |Cards()| ==> Cards()[i].id == i + 1
  {
    forall i | 0 <= i < 78 ensures Cards()[i].id == i + 1 {
      if i != 22 {
        SourceIdAt(if i < 71 then i else i + 1);
      }
    }
  }

  /** The corrected catalog has unique ids, and id `k` is found at position `k - 1` for every `k` from 1 to 78. */
  lemma CardsIdsUnique()
    ensures UniqueIds(Cards())
    ensures forall k :: 1 <= k <= 78 ==> FirstIndexWhere(Cards(), HasId(k)) == Some(k - 1)
  {
    CardsIdsArePositions();
    forall k | 1 <= k <= 78 ensures FirstIndexWhere(Cards(), HasId(k)) == Some(k - 1) {
      FirstWithOwnId(Cards(), k - 1);
    }
  }
}
