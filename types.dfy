/**
 * The record shapes of the application (types.ts). Optional fields whose
 * absence behaves like an empty list (`attachments?: Attachment[]`) are plain
 * sequences; `isText?: boolean` is a boolean (an absent flag is falsy).
 */
module Types {

  datatype Option<T> = None | Some(value: T)

  datatype Role = User | Model | System | Tool

  datatype Attachment = Attachment(name: string, mimeType: string, data: string, isText: bool)

  /** `ToolResult`: the `type` tag together with the payload shape each tool stores in `data`. */
  datatype ToolResult =
    | SshTerminal(command: string, output: string)
    | CalendarLink(url: string, title: string)
    | Model3D(code: string, description: string)
    | WebhookCall(payload: string, response: string, url: string)

  datatype GroundingUrl = GroundingUrl(title: string, uri: string)

  datatype Message = Message(
    id: string,
    role: Role,
    content: string,
    timestamp: int,
    attachments: seq<Attachment>,
    groundingUrls: seq<GroundingUrl>,
    audioData: Option<string>,
    toolResult: Option<ToolResult>)

  datatype ModuleConfig = ModuleConfig(
    browser: bool,
    memory: bool,
    scraper: bool,
    calendar: bool,
    drive: bool,
    ssh: bool,
    model3d: bool,
    canvas: bool,
    webhook: bool,
    imageGen: bool)

  datatype WebhookConfig = WebhookConfig(url: string, description: string)

  /** `AgentConfig` without its two floating-point fields (temperature, avatarScale). */
  datatype AgentConfig = AgentConfig(
    systemInstruction: string,
    modelName: string,
    useSearch: bool,
    useMemory: bool,
    activeModules: ModuleConfig,
    webhookConfig: WebhookConfig,
    useDeepAnalysis: bool,
    enableTTS: bool,
    voiceName: string)

  datatype SavedAgent = SavedAgent(id: string, name: string, config: AgentConfig, createdAt: int)

  datatype ChatSession = ChatSession(
    id: string,
    title: string,
    messages: seq<Message>,
    lastModified: int,
    preview: string)

  /** `UserProfile`; `name: string | null` is an `Option`. */
  datatype UserProfile = UserProfile(
    name: Option<string>,
    technicalSkills: seq<string>,
    communicationStyle: string,
    personalFacts: seq<string>,
    projectContexts: seq<string>,
    preferences: seq<string>)
}
