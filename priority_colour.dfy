/** src/utils/getPriorityColour.ts: the badge classes for a priority string. */
module PriorityColour {

  const HighClasses := "bg-red-100 text-red-800 dark:bg-red-700 dark:text-red-50"
  const MediumClasses := "bg-yellow-100 text-yellow-800 dark:bg-yellow-700 dark:text-yellow-50"
  const LowClasses := "bg-green-100 text-green-800 dark:bg-green-800 dark:text-green-100"
  const DefaultClasses := "bg-gray-100 text-gray-800 dark:bg-gray-800 dark:text-gray-100"

  /** Total over all strings: the three known priorities get their own colour,
      everything else (the empty string included) the gray default. */
  function GetPriorityColour(priority: string): (c: string)
    ensures c in {HighClasses, MediumClasses, LowClasses, DefaultClasses}
    ensures c == HighClasses <==> priority == "high"
    ensures c == MediumClasses <==> priority == "medium"
    ensures c == LowClasses <==> priority == "low"
    ensures c == DefaultClasses <==> priority !in {"high", "medium", "low"}
  {
    match priority
    case "high" => HighClasses
    case "medium" => MediumClasses
    case "low" => LowClasses
    case _ => DefaultClasses
  }

  /** Two priority strings get the same classes exactly when both are the same
      known priority or both are unknown. */
  lemma ColourDistinguishesPriorities(p: string, q: string)
    ensures GetPriorityColour(p) == GetPriorityColour(q) <==>
      p == q || (p !in {"high", "medium", "low"} && q !in {"high", "medium", "low"})
  {
  }
}
