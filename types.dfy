/** The records exchanged by the chat backend (server/src/types/index.ts).
    Dates are integers counting milliseconds. */
module Types {
  import opened Common

  const HourMs: int := 60 * 60 * 1000

  datatype Role = User | Assistant | System

  /** One turn of a conversation as the API returns it. */
  datatype ChatMessage = ChatMessage(role: Role, content: string, timestamp: Option<int>)

  datatype ChatRequest = ChatRequest(sessionId: string, message: string, userId: Option<string>)

  datatype ChatResponse = ChatResponse(
    sessionId: string,
    message: string,
    response: string,
    timestamp: int,
    tokensUsed: Option<int>)

  datatype Session = Session(
    id: string,
    userId: Option<string>,
    createdAt: int,
    updatedAt: int,
    expiresAt: int,
    metadata: map<string, Json>)

  datatype SafetyRating = SafetyRating(category: string, probability: string)

  datatype GeminiResponse = GeminiResponse(
    text: string,
    tokensUsed: Option<int>,
    finishReason: Option<string>,
    safetyRatings: Option<seq<SafetyRating>>)
}
