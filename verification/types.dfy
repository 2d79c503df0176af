/** The records shared by every part of the application: the nutrition data
    returned by one analysis, the diary entry built from it, and the messages
    of the assistant chat. Numbers are modelled as `real`. */
module Types {

  /** `T | null` */
  datatype Option<+T> = None | Some(value: T)

  datatype Macronutrients = Macronutrients(proteinG: real, carbohydratesG: real, fatG: real)

  datatype Micronutrient = Micronutrient(name: string, amount: string)

  datatype Recommendations = Recommendations(portionAdvice: string, healthierAlternative: string)

  /** The structured result of analysing one meal photo. */
  datatype NutritionInfo = NutritionInfo(
    foodName: string,
    totalCalories: real,
    portionSizeGrams: real,
    macronutrients: Macronutrients,
    micronutrients: seq<Micronutrient>,
    recommendations: Recommendations)

  /** A committed meal: the analysis fields plus an identifier and the image
      reference shown beside it in the diary. */
  datatype DiaryEntry = DiaryEntry(info: NutritionInfo, id: string, imageUrl: string)

  datatype Role = User | Model

  datatype ChatMessage = ChatMessage(role: Role, text: string)

  /** The value a `catch` clause receives: an `Error` object, or anything else. */
  datatype Thrown = ErrorObject(message: string) | NonError

  /** How an awaited promise settled. */
  datatype Settled<+T> = Resolved(value: T) | Rejected(reason: Thrown)

  /** `err instanceof Error ? err.message : fallback` */
  function CaughtMessage(reason: Thrown, fallback: string): (m: string)
    ensures reason.ErrorObject? ==> m == reason.message
    ensures reason.NonError? ==> m == fallback
  {
    match reason
    case ErrorObject(m) => m
    case NonError => fallback
  }

  /** JavaScript truthiness of a `string | null`: null and "" are both falsy. */
  predicate Truthy(s: Option<string>)
  {
    s.Some? && s.value != ""
  }
}
