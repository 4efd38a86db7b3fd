/** The records of the client's data model (the `Lesson`, `Course` and `ChatMessage` interfaces). */
module Types {
  import opened Wrappers

  datatype Lesson = Lesson(
    id: string,
    title: string,
    duration: string,
    isCompleted: bool,
    videoUrl: string,
    thumbnail: Option<string>)

  /** A course; `progress` is an author-supplied percentage, not derived from the lessons. */
  datatype Course = Course(
    id: string,
    title: string,
    instructor: string,
    description: string,
    thumbnail: string,
    category: string,
    progress: int,
    lessons: seq<Lesson>,
    price: string,
    isLocked: bool)

  datatype Role = User | Model

  datatype Part = Part(text: string)

  datatype ChatMessage = ChatMessage(role: Role, parts: seq<Part>)
}
