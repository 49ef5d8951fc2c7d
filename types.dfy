/** The application's records (types.ts). ISO date strings are modelled as
    integer milliseconds since the epoch. */
module Types {

  datatype ChallengeStatus = Pending | Active | Completed

  datatype UserProfile = UserProfile(id: string, username: string, joinedDate: int)

  datatype SubTask = SubTask(id: string, title: string, isCompleted: bool)

  datatype Challenge = Challenge(
    id: string,
    title: string,
    description: string,
    status: ChallengeStatus,
    startDate: int,
    endDate: int,
    subTasks: seq<SubTask>)

  datatype Affirmation = Affirmation(id: string, text: string, date: int)

  datatype JournalEntry = JournalEntry(id: string, date: int, prompt: string, content: string)
}
