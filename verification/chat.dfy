/** The vocabulary shared by the page, the store and the relay: conversation
    turns and the generation settings sent with every request. */
module Chat {

  datatype Role = User | Assistant | System

  /** One message as it travels to the relay and on to a backend. */
  datatype Turn = Turn(role: Role, content: string)

  /** The generation settings. `provider` is the string the client sends;
      the application compares it only against `"ollama"`, and any
      other value selects LM Studio. The sampling parameters are passed through
      without being inspected. */
  datatype Settings = Settings(
    provider: string,
    baseUrl: string,
    model: string,
    temperature: real,
    maxTokens: int,
    topP: real,
    topK: int,
    repeatPenalty: real,
    systemPrompt: string,
    streamResponse: bool)

  const Ollama := "ollama"
  const OllamaDefaultUrl := "http://localhost:11434"
  const LmStudioDefaultUrl := "http://localhost:1234"

  predicate IsOllama(provider: string) {
    provider == Ollama
  }
}
