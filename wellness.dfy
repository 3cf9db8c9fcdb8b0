/**
 * The records of the wellness journal: one daily entry per calendar date and the
 * static self-help resources. Calendar dates are modelled as day numbers.
 */
module Wellness {

  /** A calendar date, as a number of days since some fixed origin. */
  type Day = int

  /** One day's record; `id` is written equal to `date` by the page that saves it. */
  datatype DailyEntry = DailyEntry(
    id: Day,
    date: Day,
    mood: int,
    energy: int,
    sleep: int,
    stress: int,
    exercise: bool,
    notes: string)

  /** The five resource categories. */
  datatype Category = Meditation | Exercise | Sleep | Stress | Emergency

  datatype Resource = Resource(
    id: string,
    title: string,
    description: string,
    category: Category,
    link: string)
}
