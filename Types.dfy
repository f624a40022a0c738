/** The records and the view enumeration shared by the pages and the
    service layer. */
module Types {
  import opened Js

  /** `box_2d`: four numbers read by position as (ymin, xmin, ymax, xmax)
      on a 0-1000 scale. Nothing in the type restricts the range or the
      order. */
  type Box2D = (real, real, real, real)

  function YMin(b: Box2D): real { b.0 }
  function XMin(b: Box2D): real { b.1 }
  function YMax(b: Box2D): real { b.2 }
  function XMax(b: Box2D): real { b.3 }

  /** `label` is a Dafny keyword, so the field is called `labelText`. */
  datatype BoundingBox = BoundingBox(labelText: string, box2d: Box2D)

  /** A free-text answer and the located items, in the order received. */
  datatype AuditResponse = AuditResponse(answer: string, items: seq<BoundingBox>)

  datatype Role = User | Model

  /** One transcript entry. The timestamp is not modelled. */
  datatype ChatMessage = ChatMessage(id: string, role: Role, text: string)

  /** An image file picked in the browser; only its MIME type is read by
      the application, its bytes are reached through a file reader. */
  datatype File = File(name: string, mimeType: string)

  /** Declared for a future multi-session store; no flow builds one. */
  datatype AuditSession = AuditSession(
    id: string,
    imageUrl: string,
    imageFile: File,
    history: seq<ChatMessage>,
    lastAnalysis: Option<AuditResponse>)

  datatype AppView = Dashboard | Audit | Chat

  /** The string value of each enum member. */
  function ViewName(v: AppView): (name: string)
    ensures |name| > 0
    ensures forall i :: 0 <= i < |name| ==> 'A' <= name[i] <= 'Z'
  {
    match v
    case Dashboard => "DASHBOARD"
    case Audit => "AUDIT"
    case Chat => "CHAT"
  }
}
