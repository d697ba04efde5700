/** The enums and records of the application (types.ts). */
module Types {
  import opened Wrappers

  /** The four account roles; `Name` is the enum's string value. */
  datatype UserRole = Buyer | Seller | Intermediary | Admin
  {
    function Name(): string
    {
      match this
      case Buyer => "BUYER"
      case Seller => "SELLER"
      case Intermediary => "INTERMEDIARY"
      case Admin => "ADMIN"
    }
  }

  /** The five stages of a deal, in declaration order; `Label` is the enum's string value. */
  datatype DealStage = Negotiation | SpaSigned | LcOpened | Logistics | Completed
  {
    function Label(): string
    {
      match this
      case Negotiation => "Negotiation"
      case SpaSigned => "SPA Signed"
      case LcOpened => "LC Opened"
      case Logistics => "Logistics"
      case Completed => "Completed"
    }
  }

  /** The stages in the order the enum declares them. */
  const AllStages: seq<DealStage> := [Negotiation, SpaSigned, LcOpened, Logistics, Completed]

  datatype User = User(
    id: string,
    name: string,
    email: string,
    role: UserRole,
    verified: bool,
    avatar: Option<string>,
    companyName: Option<string>)

  /** A deal between a buyer and a seller; the value is in US dollars. */
  datatype Deal = Deal(
    id: string,
    mineId: string,
    mineName: string,
    buyerId: string,
    sellerId: string,
    value: int,
    stage: DealStage,
    commodity: string,
    quantity: string,
    lastActivity: string)

  datatype NotificationKind = Info | Success | Warning | Error

  datatype Notification = Notification(
    id: string,
    title: string,
    message: string,
    kind: NotificationKind,
    timestamp: string,
    read: bool)

  datatype ChatMessage = ChatMessage(
    id: string,
    senderId: string,
    senderName: string,
    content: string,
    timestamp: string,
    isSystem: Option<bool>)
}
