/** The database tables the repositories read and write, as rows held in one store
    object. Timestamps are milliseconds since the epoch; a nullable column is an
    `Option`. Row order is insertion order, which is the order `findFirst` sees. */
module Tables {
  import opened Common

  datatype User = User(
    id: string,
    email: string,
    name: Option<string>,
    password: Option<string>,      // the password hash, never the plaintext
    emailVerified: Option<int>,    // None = not verified
    image: Option<string>,
    plan: Option<string>)

  /** Defaults of the settings table: theme "system", two-factor off. */
  datatype UserSettings = UserSettings(id: string, userId: string, theme: string, isTwoFactorEnabled: bool)

  /** A row of the verification-token or reset-password-token table. */
  datatype ExpiringToken = ExpiringToken(id: string, userId: string, token: string, expires: int)

  datatype TwoFactorToken = TwoFactorToken(id: string, email: string, token: string, expires: int)

  datatype TwoFactorConfirmation = TwoFactorConfirmation(id: string, userId: string)

  datatype SubscriptionStatus = Active | Canceled | Incomplete | IncompleteExpired | PastDue | Trialing | Unpaid

  datatype Subscription = Subscription(
    id: string,
    userId: string,
    status: SubscriptionStatus,
    planType: string,
    stripeCustomerId: Option<string>,
    stripeSubscriptionId: Option<string>,
    stripePriceId: Option<string>,
    currentPeriodStart: Option<int>,
    currentPeriodEnd: Option<int>,
    cancelAtPeriodEnd: bool,
    createdAt: int,
    updatedAt: int)

  datatype Chat = Chat(id: string, name: string, userId: string, createdAt: int, updatedAt: int)

  datatype Role = UserRole | AssistantRole

  datatype ChatMessage = ChatMessage(id: string, content: string, role: Role, chatId: string, userId: string, createdAt: int)

  /** A link between a message and an uploaded file. */
  datatype MessageAttachment = MessageAttachment(messageId: string, fileUploadId: string)

  datatype FileUpload = FileUpload(id: string, key: string, fileName: string, mimeType: string, userId: string)

  /** The relational store. Row ids that the database generates are supplied by the
      caller of an insert. The users table keeps emails unique. */
  class Database {
    var users: seq<User>
    var userSettings: seq<UserSettings>
    var verificationTokens: seq<ExpiringToken>
    var resetPasswordTokens: seq<ExpiringToken>
    var twoFactorTokens: seq<TwoFactorToken>
    var twoFactorConfirmations: seq<TwoFactorConfirmation>
    var subscriptions: seq<Subscription>
    var chats: seq<Chat>
    var chatMessages: seq<ChatMessage>
    var messageAttachments: seq<MessageAttachment>
    var fileUploads: seq<FileUpload>

    constructor ()
      ensures users == [] && userSettings == [] && verificationTokens == [] && resetPasswordTokens == []
      ensures twoFactorTokens == [] && twoFactorConfirmations == [] && subscriptions == []
      ensures chats == [] && chatMessages == [] && messageAttachments == [] && fileUploads == []
    {
      users := [];
      userSettings := [];
      verificationTokens := [];
      resetPasswordTokens := [];
      twoFactorTokens := [];
      twoFactorConfirmations := [];
      subscriptions := [];
      chats := [];
      chatMessages := [];
      messageAttachments := [];
      fileUploads := [];
    }
  }
}
