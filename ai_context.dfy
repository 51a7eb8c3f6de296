/**
 * The client's recommendation list: loaded for the signed-in user, a newly
 * generated recommendation put in front, one marked read by id. The API's
 * answers are parameters: `None` stands for a request that failed.
 */
module AiContext {
  import opened Wrappers
  import opened NotificationManager

  /** A recommendation as the client receives it; `kind` is the `type` string. */
  datatype Recommendation = Recommendation(
    id: string, title: string, content: string, kind: string, createdAt: string, isRead: bool, userId: string)

  /** `prev.map(rec => rec.id === id ? { ...rec, isRead: true } : rec)`. */
  function MarkedRead(recs: seq<Recommendation>, id: string): (r: seq<Recommendation>)
    ensures |r| == |recs|
  {
    seq(|recs|, i requires 0 <= i < |recs| => if recs[i].id == id then recs[i].(isRead := true) else recs[i])
  }

  /**
   * Marking keeps the length and the order; the items with that id become
   * read and keep every other field; every other item is untouched.
   */
  lemma MarkedReadSpec(recs: seq<Recommendation>, id: string)
    ensures forall i :: 0 <= i < |recs| && recs[i].id == id ==>
      MarkedRead(recs, id)[i].isRead && MarkedRead(recs, id)[i].(isRead := recs[i].isRead) == recs[i]
    ensures forall i :: 0 <= i < |recs| && recs[i].id != id ==> MarkedRead(recs, id)[i] == recs[i]
  {
  }

  /** Marking the same id twice is marking it once. */
  lemma MarkedReadIdempotent(recs: seq<Recommendation>, id: string)
    ensures MarkedRead(MarkedRead(recs, id), id) == MarkedRead(recs, id)
  {
    var once := MarkedRead(recs, id);
    var twice := MarkedRead(once, id);
    forall i | 0 <= i < |recs| ensures twice[i] == once[i] {
      if recs[i].id == id {
        assert once[i] == recs[i].(isRead := true);
      }
    }
  }

  /** Marking an id nobody carries changes nothing. */
  lemma MarkAbsentId(recs: seq<Recommendation>, id: string)
    requires forall i :: 0 <= i < |recs| ==> recs[i].id != id
    ensures MarkedRead(recs, id) == recs
  {
  }

  /** A notification the provider raises: its type and message. */
  datatype Notice = Notice(kind: NotificationType, message: string)

  const LoginToGenerate: string := "Você precisa estar logado para gerar recomendações"
  const LoginToMark: string := "Você precisa estar logado para marcar recomendações como lidas"
  const Generated: string := "Nova recomendação gerada com sucesso!"
  const GenerateFailed: string := "Falha ao gerar recomendação. Tente novamente."
  const MarkFailed: string := "Falha ao marcar recomendação como lida"

  /** The provider's state. */
  class AiProvider {
    var recommendations: seq<Recommendation>
    var isLoading: bool
    var isGenerating: bool

    constructor ()
      ensures recommendations == [] && !isLoading && !isGenerating
    {
      recommendations := [];
      isLoading := false;
      isGenerating := false;
    }

    /**
     * The load effect: with a token and a user, the list becomes the
     * server's answer, or stays as it was when the request fails.
     */
    method LoadRecommendations(token: Option<string>, signedIn: bool, response: Option<seq<Recommendation>>)
      modifies this
      ensures Truthy(token) && signedIn && response.Some? ==> recommendations == response.value
      ensures !(Truthy(token) && signedIn && response.Some?) ==> recommendations == old(recommendations)
      ensures Truthy(token) && signedIn ==> !isLoading
      ensures !(Truthy(token) && signedIn) ==> isLoading == old(isLoading)
      ensures isGenerating == old(isGenerating)
    {
      if Truthy(token) && signedIn {
        isLoading := true;
        if response.Some? {
          recommendations := response.value;
        }
        isLoading := false;
      }
    }

    /**
     * `generateRecommendation`: without a token, an error and no change;
     * otherwise the new recommendation goes in front of the others, or,
     * when the request fails, an error is shown and thrown and the list is
     * unchanged. `thrown` says whether the call ends by throwing.
     */
    method GenerateRecommendation(token: Option<string>, response: Option<Recommendation>)
      returns (notice: Notice, thrown: bool)
      modifies this
      ensures !Truthy(token) ==>
        notice == Notice(Error, LoginToGenerate) && !thrown
        && recommendations == old(recommendations) && isGenerating == old(isGenerating)
      ensures Truthy(token) && response.Some? ==>
        notice == Notice(NotificationType.Success, Generated) && !thrown
        && recommendations == [response.value] + old(recommendations) && !isGenerating
      ensures Truthy(token) && response.None? ==>
        notice == Notice(Error, GenerateFailed) && thrown
        && recommendations == old(recommendations) && !isGenerating
      ensures isLoading == old(isLoading)
    {
      if !Truthy(token) {
        return Notice(Error, LoginToGenerate), false;
      }
      isGenerating := true;
      if response.Some? {
        recommendations := [response.value] + recommendations;
        notice, thrown := Notice(NotificationType.Success, Generated), false;
      } else {
        notice, thrown := Notice(Error, GenerateFailed), true;
      }
      isGenerating := false;
    }

    /**
     * `markAsRead`: without a token, an error and no change; otherwise,
     * once the server accepts, the items with that id are read; when it
     * refuses, an error is shown and thrown and the list is unchanged.
     */
    method MarkAsRead(token: Option<string>, id: string, accepted: bool) returns (notice: Option<Notice>, thrown: bool)
      modifies this
      ensures !Truthy(token) ==>
        notice == Some(Notice(Error, LoginToMark)) && !thrown && recommendations == old(recommendations)
      ensures Truthy(token) && accepted ==>
        notice == None && !thrown && recommendations == MarkedRead(old(recommendations), id)
      ensures Truthy(token) && !accepted ==>
        notice == Some(Notice(Error, MarkFailed)) && thrown && recommendations == old(recommendations)
      ensures isLoading == old(isLoading) && isGenerating == old(isGenerating)
    {
      if !Truthy(token) {
        return Some(Notice(Error, LoginToMark)), false;
      }
      if accepted {
        recommendations := MarkedRead(recommendations, id);
        notice, thrown := None, false;
      } else {
        notice, thrown := Some(Notice(Error, MarkFailed)), true;
      }
    }
  }
}
