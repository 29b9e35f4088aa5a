/** The three-step difficulty scale shared by projects, learning paths and users. */
module Levels {

  datatype Level = Beginner | Intermediate | Advanced

  /** The name the source uses for a level ('beginner', 'intermediate', 'advanced'). */
  function LevelName(l: Level): string {
    match l
    case Beginner => "beginner"
    case Intermediate => "intermediate"
    case Advanced => "advanced"
  }

  /** The ordinal used when sorting by difficulty: beginner 1, intermediate 2, advanced 3. */
  function LevelOrder(l: Level): (n: int)
    ensures 1 <= n <= 3
    ensures n == 1 <==> l == Beginner
    ensures n == 3 <==> l == Advanced
  {
    match l
    case Beginner => 1
    case Intermediate => 2
    case Advanced => 3
  }

  lemma LevelNameInjective(a: Level, b: Level)
    ensures LevelName(a) == LevelName(b) <==> a == b
  {
  }
}
