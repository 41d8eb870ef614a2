/** The documents and records the harvester reads and writes, in the shapes that
    src/types/index.ts declares. Where a property may be absent, `Option` says so. */
module Types {
  import opened Common
  import opened Json

  /** An annotation of a canvas; an absent `motivation` behaves like any value other than 'painting'. */
  datatype Annotation = Annotation(motivation: string, target: Option<string>)

  /** An annotation page of a canvas, holding its annotations. */
  datatype AnnotationPage = AnnotationPage(items: Option<seq<Annotation>>)

  /** A `{ id }` reference, such as one entry of `seeAlso`. */
  datatype Link = Link(id: string)

  /** A canvas of a IIIF Presentation 3.0 manifest. */
  datatype Canvas = Canvas(id: string, items: Option<seq<AnnotationPage>>, seeAlso: Option<seq<Link>>)

  /** A manifest; `items` is `None` when the document has no canvas list. */
  datatype Manifest = Manifest(id: string, items: Option<seq<Canvas>>)

  /** The root of the activity stream: `firstId` is `collection.first?.id`. */
  datatype Collection = Collection(firstId: Option<string>)

  /** One entry of a page's `orderedItems`: its `type` and `object.id`. */
  datatype Activity = Activity(activityType: string, objectId: string)

  /** A page of the activity stream: `orderedItems` is `None` when it is missing or not an
      array, and `nextId` is `page.next?.id`. */
  datatype Page = Page(orderedItems: Option<seq<Activity>>, nextId: Option<string>)

  /** The record written for a canvas with valid models. */
  datatype CanvasData = CanvasData(
    canvasId: string,
    manifestId: string,
    originalCanvasId: string,
    originalManifestId: string,
    dataset: JValue)

  /** The store key of a canvas record: (project id, manifest number, canvas segment). */
  type CanvasKey = (int, string, string)

  datatype ErrorLog = ErrorLog(manifestId: string, canvasId: string, error: string, timestamp: string)

  /** `modelId` and `projectId` are whatever the model holds under `id` and `projectId`. */
  datatype EmptyModelLog = EmptyModelLog(
    manifestId: string,
    canvasId: string,
    modelId: JValue,
    projectId: JValue,
    reason: string,
    timestamp: string)

  /** The resumption state; `lastProcessedManifest` is `None` for JSON `null`. */
  datatype Progress = Progress(
    lastProcessedManifest: Option<string>,
    processedCanvases: seq<string>,
    timestamp: string)
}
