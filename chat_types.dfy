/**
 * The records exchanged by the backend: the settings a client sends with each
 * chat request and the role-tagged turns of a transcript.
 */
module ChatTypes {

  /** Who produced a turn of the transcript. */
  datatype Role = System | User | Assistant

  /** One turn of a transcript, as sent to the completion provider. */
  datatype Message = Message(role: Role, content: string)

  datatype Gender = Male | Female

  /**
   * The per-request settings. `dialogueLanguage` is typed as the single
   * literal "chinese" on the TypeScript side, but it arrives unchecked in a
   * request body, so the model keeps it as an arbitrary string. The speed is
   * a JavaScript number; the model restricts it to integers.
   */
  datatype ChatSettings = ChatSettings(
    dialogueLanguage: string,
    voiceRole: string,
    voiceSpeed: int,
    gender: Gender)
}
