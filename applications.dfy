/** The application records passed between the stages. The lister decodes
    them from the legacy API's `nodes` list; the provisioner adds an
    `identifier` entry to each one in place; the runner reads them. */
module Applications {
  import opened Common

  class Application {
    const id: string
    const name: string
    const description: string
    /** Absent until the provisioner sets it. */
    var identifier: Option<string>

    /** One decoded `{id name description}` node. */
    constructor (id: string, name: string, description: string)
      ensures this.id == id && this.name == name && this.description == description
      ensures identifier == None
    {
      this.id := id;
      this.name := name;
      this.description := description;
      identifier := None;
    }
  }
}
